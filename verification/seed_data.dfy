/**
 * The hard-coded reference tables of the client (locations, drivers and the
 * initial ride list) and the two lookups `getDriver` / `getLocation`, which
 * return the first seed entry with a matching id, or nothing.
 */
module SeedData {
  import opened Wrappers
  import opened RideModel

  const Locations: seq<Location> := [
    Location("loc-1", "The Village", Residential),
    Location("loc-2", "RB Parking Lot", Campus),
    Location("loc-3", "Liberty Square", Residential),
    Location("loc-4", "Tanner Building", Campus),
    Location("loc-5", "Campus Plaza", Campus),
    Location("loc-6", "Marriott Center", Campus),
    Location("loc-7", "Life Science Building", Campus),
    Location("loc-8", "Glenwood", Residential),
    Location("loc-9", "Old Academy", Campus),
    Location("loc-10", "Heritage Halls", Residential),
    Location("loc-11", "LaVell Edwards Stadium", Campus),
    Location("loc-12", "Wyview Park", Residential),
    Location("loc-13", "Helaman Halls", Residential),
    Location("loc-14", "Wilkinson Center", Campus)
  ]

  const Drivers: seq<Driver> := [
    Driver("d-1", "Alex Martinez", "@alexm", 142, true, Vehicle(2023, "Honda", "Civic", "Silver", "BYU-3291")),
    Driver("d-2", "Sarah Kim", "@sarahk", 98, true, Vehicle(2022, "Toyota", "Camry", "White", "UTH-7714")),
    Driver("d-3", "James Lewis", "@jamesl", 215, true, Vehicle(2024, "Tesla", "Model 3", "Black", "EV-04821")),
    Driver("d-4", "Emily Reyes", "@emilyr", 63, true, Vehicle(2021, "Hyundai", "Sonata", "Blue", "PRV-5580")),
    Driver("d-5", "David Wang", "@davidw", 47, true, Vehicle(2023, "Mazda", "CX-5", "Red", "UTH-9023")),
    Driver("d-6", "Rachel Torres", "@rachelt", 180, true, Vehicle(2022, "Subaru", "Outback", "Green", "MTN-3347")),
    Driver("d-7", "Chris Bennett", "@chrisb", 31, false, Vehicle(2020, "Ford", "Focus", "Gray", "BYU-1109"))
  ]

  const InitialRides: seq<RideOffer> := [
    RideOffer(1, "d-1", "loc-1", "loc-2", "10:00 AM", "2026-02-10", 4, 3),
    RideOffer(2, "d-2", "loc-3", "loc-4", "10:15 AM", "2026-02-10", 4, 2),
    RideOffer(3, "d-3", "loc-5", "loc-6", "10:30 AM", "2026-02-10", 4, 4),
    RideOffer(4, "d-4", "loc-7", "loc-8", "11:00 AM", "2026-02-10", 3, 1),
    RideOffer(5, "d-5", "loc-9", "loc-4", "11:15 AM", "2026-02-10", 4, 3),
    RideOffer(6, "d-6", "loc-10", "loc-3", "11:30 AM", "2026-02-10", 4, 2),
    RideOffer(7, "d-7", "loc-11", "loc-10", "12:00 PM", "2026-02-10", 5, 4),
    RideOffer(8, "d-1", "loc-14", "loc-12", "12:30 PM", "2026-02-10", 4, 2),
    RideOffer(9, "d-3", "loc-13", "loc-5", "1:00 PM", "2026-02-10", 4, 3)
  ]

  /** The first element of `xs` whose key is `id`, as JavaScript's `Array.prototype.find` returns it. */
  function FindById<T(==)>(xs: seq<T>, key: T -> string, id: string): (r: Option<T>)
    ensures r.None? <==> forall i :: 0 <= i < |xs| ==> key(xs[i]) != id
    ensures r.Some? ==> exists i :: 0 <= i < |xs| && xs[i] == r.value && key(xs[i]) == id
                                    && forall j :: 0 <= j < i ==> key(xs[j]) != id
  {
    if |xs| == 0 then None
    else if key(xs[0]) == id then Some(xs[0])
    else
      var r := FindById(xs[1..], key, id);
      if r.Some? then
        var i :| 0 <= i < |xs[1..]| && xs[1..][i] == r.value && key(xs[1..][i]) == id
                 && forall j :: 0 <= j < i ==> key(xs[1..][j]) != id;
        assert xs[i + 1] == r.value && key(xs[i + 1]) == id;
        assert forall j :: 0 <= j < i + 1 ==> key(xs[j]) != id by {
          forall j | 0 <= j < i + 1 ensures key(xs[j]) != id {
            if j > 0 { assert xs[j] == xs[1..][j - 1]; }
          }
        }
        r
      else
        assert forall i :: 0 <= i < |xs| ==> key(xs[i]) != id by {
          forall i | 0 <= i < |xs| ensures key(xs[i]) != id {
            if i > 0 { assert xs[i] == xs[1..][i - 1]; }
          }
        }
        r
  }

  /** `getDriver`: the first seed driver with the given id. */
  function GetDriver(id: string): (r: Option<Driver>)
    ensures r.None? <==> forall i :: 0 <= i < |Drivers| ==> Drivers[i].id != id
    ensures r.Some? ==> r.value.id == id && r.value in Drivers
    ensures r.Some? ==> exists i :: 0 <= i < |Drivers| && Drivers[i] == r.value && forall j :: 0 <= j < i ==> Drivers[j].id != id
  {
    FindById(Drivers, (d: Driver) => d.id, id)
  }

  /** `getLocation`: the first seed location with the given id. */
  function GetLocation(id: string): (r: Option<Location>)
    ensures r.None? <==> forall i :: 0 <= i < |Locations| ==> Locations[i].id != id
    ensures r.Some? ==> r.value.id == id && r.value in Locations
    ensures r.Some? ==> exists i :: 0 <= i < |Locations| && Locations[i] == r.value && forall j :: 0 <= j < i ==> Locations[j].id != id
  {
    FindById(Locations, (l: Location) => l.id, id)
  }

  /**
   * No two seed drivers and no two seed locations share an id, so the first
   * match `GetDriver` and `GetLocation` return is the only match.
   */
  lemma SeedIdsDistinct()
    ensures forall i, j :: 0 <= i < j < |Drivers| ==> Drivers[i].id != Drivers[j].id
    ensures forall i, j :: 0 <= i < j < |Locations| ==> Locations[i].id != Locations[j].id
  {
  }
}
