/**
 * The persisted saved-package list (script.js: getSavedPackages,
 * savePackages, addPackage, removePackage, and the first-run seeding in
 * window.onload). localStorage holds one text under the key
 * "aftership_packages"; the class below is that one slot.
 */
module Store {
  import opened Wrappers
  import opened Packages

  /** What the slot can hold, as JSON.parse sees it. */
  datatype Blob =
    | JsonArray(packages: seq<Package>)  // a serialized array of records
    | JsonFalsy                          // a JSON text whose value is falsy: null, false, 0 or ""
    | EmptyText                          // the empty string
    | Malformed                          // a text JSON.parse rejects

  /** The value of JSON.parse(localStorage.getItem(key)), or a thrown error.
      `Value(None)` stands for any falsy result (null, false, 0 or ""), all of
      which `|| []` treats alike. A missing key reads as null, and
      JSON.parse(null) is null. */
  datatype Parsed = Value(packages: Option<seq<Package>>) | Thrown

  function JsonParse(item: Option<Blob>): (r: Parsed)
    ensures r.Thrown? <==> item == Some(EmptyText) || item == Some(Malformed)
    ensures r == Value(None) <==> item == None || item == Some(JsonFalsy)
    ensures forall ps :: r == Value(Some(ps)) <==> item == Some(JsonArray(ps))
  {
    match item
    case None => Value(None)
    case Some(JsonArray(ps)) => Value(Some(ps))
    case Some(JsonFalsy) => Value(None)
    case Some(EmptyText) => Thrown
    case Some(Malformed) => Thrown
  }

  /** The two records written on the very first load. */
  function SamplePackages(): (r: seq<Package>)
    ensures |r| == 2 && Unique(r)
  {
    [ Package("9400111699000185933618", "Delivered", None),
      Package("1Z9999999999999999", "In Transit", None) ]
  }

  class PackageStore {
    /** The text stored under "aftership_packages", if any. */
    var item: Option<Blob>

    constructor (initial: Option<Blob>)
      ensures item == initial
    {
      item := initial;
    }

    /** getSavedPackages: never fails; a missing, falsy, empty or unparsable
        stored value all load as the empty list. */
    function SavedPackages(): (r: seq<Package>)
      reads this
      ensures item.Some? && item.value.JsonArray? ==> r == item.value.packages
      ensures !(item.Some? && item.value.JsonArray?) ==> r == []
    {
      match JsonParse(item)
      case Thrown => []
      case Value(None) => []
      case Value(Some(ps)) => ps
    }

    /** savePackages: overwrites the slot; loading gives the list back. */
    method SavePackages(ps: seq<Package>)
      modifies this
      ensures item == Some(JsonArray(ps))
      ensures SavedPackages() == ps
    {
      item := Some(JsonArray(ps));
    }

    /** addPackage: a record whose number is already saved is ignored and
        nothing is written; otherwise it goes to the front and the list is
        written back. */
    method AddPackage(p: Package)
      modifies this
      ensures ContainsNumber(old(SavedPackages()), p.number) ==> item == old(item)
      ensures !ContainsNumber(old(SavedPackages()), p.number) ==>
                item == Some(JsonArray([p] + old(SavedPackages())))
      ensures SavedPackages() == Inserted(old(SavedPackages()), p)
      ensures Unique(old(SavedPackages())) ==> Unique(SavedPackages())
    {
      var packages := SavedPackages();
      if !ContainsNumber(packages, p.number) {
        packages := [p] + packages;
        SavePackages(packages);
      }
      if Unique(old(SavedPackages())) {
        InsertedPreservesUnique(old(SavedPackages()), p);
      }
    }

    /** removePackage: drops every record with that number, keeps the others
        in order, and writes the list back even when nothing was removed. */
    method RemovePackage(n: string)
      modifies this
      ensures item == Some(JsonArray(WithoutNumber(old(SavedPackages()), n)))
      ensures !ContainsNumber(SavedPackages(), n)
      ensures !ContainsNumber(old(SavedPackages()), n) ==> SavedPackages() == old(SavedPackages())
      ensures Unique(old(SavedPackages())) ==> Unique(SavedPackages())
    {
      var packages := SavedPackages();
      packages := WithoutNumber(packages, n);
      SavePackages(packages);
      if !ContainsNumber(old(SavedPackages()), n) {
        WithoutAbsentNumber(old(SavedPackages()), n);
      }
      if Unique(old(SavedPackages())) {
        WithoutNumberPreservesUnique(old(SavedPackages()), n);
      }
    }

    /** The seeding branch of window.onload: when getItem gives a falsy text
        (the key is missing, or holds the empty string) the two sample
        records are saved; any other stored text, "[]" included, is kept. */
    method SeedOnFirstLoad()
      modifies this
      ensures old(item) == None || old(item) == Some(EmptyText) ==>
                item == Some(JsonArray(SamplePackages())) && SavedPackages() == SamplePackages()
      ensures old(item) != None && old(item) != Some(EmptyText) ==> item == old(item)
    {
      if item == None || item == Some(EmptyText) {
        SavePackages(SamplePackages());
      }
    }
  }
}
