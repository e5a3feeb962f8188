/** The location records the site loads once at start-up, and the names derived
    from them. A field the JSON record lacks, or holds as an empty string, is ""
    here: in every use this model covers, a missing field behaves as the empty
    string. */
module Locations {
  import opened Basics

  /** One `stats` entry, such as `artisans: "50+"`, in the record's own order. */
  datatype Stat = Stat(key: string, value: string)

  datatype Location = Location(title: string, craft: string, primary: string, stats: seq<Stat>)

  /** Location id (the marker's `data-location`) to record. */
  type LocationData = map<string, Location>

  /** One member of the embedded JSON object, in document order. */
  datatype Record = Record(key: string, location: Location)

  predicate DistinctKeys(records: seq<Record>) {
    forall i, j :: 0 <= i < j < |records| ==> records[i].key != records[j].key
  }

  /** The parsed object as a lookup table. */
  function LocationMap(records: seq<Record>): (data: LocationData)
    requires DistinctKeys(records)
    ensures forall k :: k in data <==> exists i :: 0 <= i < |records| && records[i].key == k
    ensures forall i :: 0 <= i < |records| ==> data[records[i].key] == records[i].location
  {
    map r | r in records :: r.key := r.location
  }

  /** `Object.values`: the records in document order. */
  function Values(records: seq<Record>): (r: seq<Location>)
    ensures |r| == |records| && forall i :: 0 <= i < |r| ==> r[i] == records[i].location
  {
    seq(|records|, i requires 0 <= i < |records| => records[i].location)
  }

  const Separator: string := " - "
  const DefaultPrimary: string := "#d4a574"

  /** The part of a title before its first " - ", trimmed; the whole title when it
      has no " - "; `fallback` when the title is missing. The site derives the name
      this way in four places with different fallbacks: "" for the list of names
      (then dropped), the location id in the panel and the quiz, "" in the story. */
  function DisplayName(title: string, fallback: string): (r: string)
    ensures title == "" ==> r == fallback
    ensures title != "" && !Contains(title, Separator) ==> r == title
    ensures title != "" ==> !Contains(r, Separator)
    ensures title != "" ==> exists k: nat :: OccursAt(title, r, k)
    ensures forall i: nat :: FirstSeparatorAt(title, i) ==> r == Trim(title[..i])
  {
    if title == "" then fallback
    else match IndexOf(title, Separator)
      case None =>
        assert OccursAt(title, title, 0);
        assert forall i: nat :: !FirstSeparatorAt(title, i);
        title
      case Some(i) =>
        TrimmedHead(title, i);
        Trim(title[..i])
  }

  /** The first " - " of `title` begins at `i`. */
  predicate FirstSeparatorAt(title: string, i: nat) {
    OccursAt(title, Separator, i) && forall j :: 0 <= j < i ==> !OccursAt(title, Separator, j)
  }

  /** The trimmed text before the first " - " occurs in the title and holds no
      " - ". */
  lemma TrimmedHead(title: string, i: nat)
    requires IndexOf(title, Separator) == Some(i)
    ensures !Contains(Trim(title[..i]), Separator)
    ensures exists k: nat :: OccursAt(title, Trim(title[..i]), k)
    ensures forall j: nat :: FirstSeparatorAt(title, j) ==> j == i
  {
    var head := title[..i];
    var r := Trim(head);
    NoSeparatorBeforeFirst(title, i, r);
    var k: nat :| OccursAt(head, r, k);
    OccursInPrefix(title, i, r, k);
  }

  /** Any infix of the text before the first " - " holds no " - " itself. */
  lemma NoSeparatorBeforeFirst(title: string, i: nat, r: string)
    requires i <= |title| && forall j :: 0 <= j < i ==> !OccursAt(title, Separator, j)
    requires exists k: nat :: OccursAt(title[..i], r, k)
    ensures !Contains(r, Separator)
  {
    var k: nat :| OccursAt(title[..i], r, k);
    OccursInPrefix(title, i, r, k);
    assert forall p :: 0 <= p < |r| ==> r[p] == title[k + p];
    forall j | 0 <= j <= |r|
      ensures !OccursAt(r, Separator, j)
    {
      if j + |Separator| <= |r| {
        assert r[j..j + |Separator|] == title[k + j..k + j + |Separator|];
        assert !OccursAt(title, Separator, k + j);
      }
    }
  }

  /** The name shown in the panel heading and used by the quiz. */
  function LocationName(key: string, loc: Location): string {
    DisplayName(loc.title, key)
  }

  /** `filter(Boolean)` on strings: the non-empty ones, in order. */
  function NonEmpty(xs: seq<string>): (r: seq<string>)
    ensures |r| <= |xs|
    ensures forall x :: x in r <==> x in xs && x != ""
    ensures multiset(r) == multiset(xs)["" := 0]
  {
    if xs == [] then []
    else
      assert xs == [xs[0]] + xs[1..];
      (if xs[0] != "" then [xs[0]] else []) + NonEmpty(xs[1..])
  }

  /** Filtering keeps the order: it works piece by piece. */
  lemma {:induction false} NonEmptyAppend(xs: seq<string>, ys: seq<string>)
    ensures NonEmpty(xs + ys) == NonEmpty(xs) + NonEmpty(ys)
  {
    if xs == [] {
      assert xs + ys == ys;
    } else {
      assert (xs + ys)[1..] == xs[1..] + ys;
      NonEmptyAppend(xs[1..], ys);
    }
  }

  /** A single string survives the filter exactly when it is not empty. */
  lemma NonEmptySingle(x: string)
    ensures NonEmpty([x]) == if x != "" then [x] else []
  {
    assert [x][1..] == [];
  }

  /** `allCrafts`: every record's craft, in record order, dropping empty ones. */
  function AllCrafts(locs: seq<Location>): (r: seq<string>)
    ensures forall c :: c in r <==> c != "" && exists i :: 0 <= i < |locs| && locs[i].craft == c
    ensures multiset(r) == multiset(Crafts(locs))["" := 0]
  {
    NonEmpty(Crafts(locs))
  }

  /** Every record's craft, in record order. */
  function Crafts(locs: seq<Location>): (r: seq<string>)
    ensures |r| == |locs| && forall i :: 0 <= i < |locs| ==> r[i] == locs[i].craft
  {
    seq(|locs|, i requires 0 <= i < |locs| => locs[i].craft)
  }

  /** A record added at the end adds its craft, if any, at the end. */
  lemma AllCraftsAppend(locs: seq<Location>, loc: Location)
    ensures AllCrafts(locs + [loc]) == AllCrafts(locs) + (if loc.craft != "" then [loc.craft] else [])
  {
    assert Crafts(locs + [loc]) == Crafts(locs) + [loc.craft];
    NonEmptyAppend(Crafts(locs), [loc.craft]);
    NonEmptySingle(loc.craft);
  }

  /** The name a record contributes to `locationNames` ("" when it has no title). */
  function NameOf(loc: Location): (r: string)
    ensures r != "" ==> !Contains(r, Separator)
  {
    DisplayName(loc.title, "")
  }

  /** `locationNames`: every record's display name, in record order, dropping
      empty ones. */
  function LocationNames(locs: seq<Location>): (r: seq<string>)
    ensures forall n :: n in r <==> n != "" && exists i :: 0 <= i < |locs| && NameOf(locs[i]) == n
    ensures multiset(r) == multiset(Names(locs))["" := 0]
  {
    NonEmpty(Names(locs))
  }

  /** Every record's display name, "" for a record without a title, in record order. */
  function Names(locs: seq<Location>): (r: seq<string>)
    ensures |r| == |locs| && forall i :: 0 <= i < |locs| ==> r[i] == NameOf(locs[i])
  {
    seq(|locs|, i requires 0 <= i < |locs| => NameOf(locs[i]))
  }

  /** A record added at the end adds its name, if any, at the end. */
  lemma LocationNamesAppend(locs: seq<Location>, loc: Location)
    ensures LocationNames(locs + [loc]) == LocationNames(locs) + (if NameOf(loc) != "" then [NameOf(loc)] else [])
  {
    assert Names(locs + [loc]) == Names(locs) + [NameOf(loc)];
    NonEmptyAppend(Names(locs), [NameOf(loc)]);
    NonEmptySingle(NameOf(loc));
  }

  /** No name in `locationNames` holds " - ". */
  lemma LocationNamesWithoutSeparator(locs: seq<Location>)
    ensures forall n :: n in LocationNames(locs) ==> !Contains(n, Separator)
  {
    forall n | n in LocationNames(locs)
      ensures !Contains(n, Separator)
    {
      var i :| 0 <= i < |locs| && NameOf(locs[i]) == n;
    }
  }

  /** The value of the first stats entry named `key`. */
  function Lookup(stats: seq<Stat>, key: string): (r: Option<string>)
    ensures r.Some? ==>
      exists i :: 0 <= i < |stats| && stats[i] == Stat(key, r.value) && forall j :: 0 <= j < i ==> stats[j].key != key
    ensures r.None? ==> forall s :: s in stats ==> s.key != key
  {
    if stats == [] then None
    else if stats[0].key == key then Some(stats[0].value)
    else
      var r := Lookup(stats[1..], key);
      if r.Some? then
        var i :| 0 <= i < |stats[1..]| && stats[1..][i] == Stat(key, r.value)
          && forall j :: 0 <= j < i ==> stats[1..][j].key != key;
        assert stats[i + 1] == Stat(key, r.value);
        assert forall j :: 0 <= j < i + 1 ==> stats[j].key != key by {
          forall j | 0 <= j < i + 1 ensures stats[j].key != key {
            if j > 0 { assert stats[j] == stats[1..][j - 1]; }
          }
        }
        r
      else r
  }

  /** A stats value JavaScript treats as true: present and not the empty string. */
  predicate Truthy(v: Option<string>) { v.Some? && v.value != "" }

  /** `data.theme?.primary || '#d4a574'`. */
  function PrimaryColor(loc: Location): (r: string)
    ensures r != ""
    ensures loc.primary != "" ==> r == loc.primary
    ensures loc.primary == "" ==> r == DefaultPrimary
  {
    if loc.primary != "" then loc.primary else DefaultPrimary
  }
}
