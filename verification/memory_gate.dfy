/** The gate in front of everything the memory search publishes. */
module PublishGate {
  import opened Wrappers
  import opened Sorting

  datatype Source = Source(path: string, sha256: Option<string>, byteStart: int, byteEnd: int)

  datatype Item = Item(id: string, actor: string, kinds: set<string>, source: Option<Source>)

  datatype GateError = UnsupportedLane

  datatype Withheld = Withheld(staleSource: nat, unreviewedAppraisal: nat, assistantOrient: nat, laneMismatch: nat)

  datatype Published = Published(visible: seq<Item>, withheld: Withheld)

  const ALLOWED_LANES := {"orient", "appraisal", "quote", "feel"}

  /** What the gate asks the file system and the review file; a digest is `None` when the file cannot be read. */
  datatype World = World(digestOf: string -> Option<string>, approved: Item -> bool)

  predicate FoundAt(s: string, part: string, i: nat) { i + |part| <= |s| && s[i..i + |part|] == part }

  predicate Contains(s: string, part: string) { exists i :: 0 <= i <= |s| && FoundAt(s, part, i) }

  function PathOf(item: Item): string { if item.source.Some? then item.source.value.path else "" }

  predicate LaneAllows(item: Item, lane: string) {
    if lane == "orient" then
      item.actor == "user" ||
      ("historical_question" !in item.kinds && !Contains("/" + PathOf(item), "/diary/raw/") &&
        !Contains("/" + PathOf(item), "/backups/"))
    else if lane == "quote" then "quote" in item.kinds
    else if lane == "feel" then item.kinds * {"emotion", "sensory_texture", "diary"} != {}
    else true
  }

  predicate SourceIsCurrent(item: Item, w: World) {
    item.source.Some? &&
    var s := item.source.value;
    s.path != "" && s.sha256.Some? && s.sha256.value != "" && w.digestOf(s.path) == s.sha256
  }

  /** Why an item is withheld: the first test it fails. */
  datatype Reason = Stale | Unreviewed | AssistantOrient | Mismatch | Visible

  function ReasonFor(item: Item, lane: string, w: World): Reason {
    if !SourceIsCurrent(item, w) then Stale
    else if "appraisal" in item.kinds && !w.approved(item) then Unreviewed
    else if lane == "orient" && item.actor == "assistant" then AssistantOrient
    else if !LaneAllows(item, lane) then Mismatch
    else Visible
  }

  function Count(items: seq<Item>, reason: Reason, lane: string, w: World): nat {
    if items == [] then 0
    else
      Count(items[..|items| - 1], reason, lane, w) +
      if ReasonFor(items[|items| - 1], lane, w) == reason then 1 else 0
  }

  /** One count per reason to withhold. */
  function Tally(items: seq<Item>, lane: string, w: World): Withheld {
    Withheld(
      Count(items, Stale, lane, w), Count(items, Unreviewed, lane, w), Count(items, AssistantOrient, lane, w),
        Count(items, Mismatch, lane, w))
  }

  function Shown(items: seq<Item>, lane: string, w: World): seq<Item> {
    Filter(items, item => ReasonFor(item, lane, w) == Visible)
  }

  lemma {:induction false} FilterSnoc<T>(s: seq<T>, x: T, p: T -> bool)
    ensures Filter(s + [x], p) == Filter(s, p) + if p(x) then [x] else []
  {
    if s == [] {
      assert s + [x] == [x];
    } else {
      assert (s + [x])[1..] == s[1..] + [x];
      FilterSnoc(s[1..], x, p);
    }
  }

  /** The freshness test with its digest cache; the cache only ever repeats what the file system said. */
  method CheckSource(item: Item, w: World, cache: map<string, Option<string>>)
    returns (current: bool, newCache: map<string, Option<string>>)
    requires forall path :: path in cache ==> cache[path] == w.digestOf(path)
    ensures current == SourceIsCurrent(item, w)
    ensures forall path :: path in newCache ==> newCache[path] == w.digestOf(path)
  {
    newCache := cache;
    if item.source.None? { return false, cache; }
    var s := item.source.value;
    if s.path == "" || s.sha256.None? || s.sha256.value == "" { return false, cache; }
    if s.path !in cache {
      newCache := cache[s.path := w.digestOf(s.path)];
    }
    return newCache[s.path] == s.sha256, newCache;
  }

  /** The publishable items in order, and how many fell to each test. */
  method Gate(candidates: seq<Item>, lane: string, w: World) returns (r: Result<Published, GateError>)
    ensures r.Err? <==> lane !in ALLOWED_LANES
    ensures r.Ok? ==> r.value.visible == Shown(candidates, lane, w)
    ensures r.Ok? ==> r.value.withheld == Tally(candidates, lane, w)
  {
    if lane !in ALLOWED_LANES { return Err(UnsupportedLane); }
    var visible: seq<Item> := [];
    var stale, unreviewed, assistant, mismatch := 0, 0, 0, 0;
    var cache: map<string, Option<string>> := map[];
    for i := 0 to |candidates|
      invariant forall path :: path in cache ==> cache[path] == w.digestOf(path)
      invariant visible == Shown(candidates[..i], lane, w)
      invariant stale == Count(candidates[..i], Stale, lane, w)
      invariant unreviewed == Count(candidates[..i], Unreviewed, lane, w)
      invariant assistant == Count(candidates[..i], AssistantOrient, lane, w)
      invariant mismatch == Count(candidates[..i], Mismatch, lane, w)
    {
      var item := candidates[i];
      assert candidates[..i + 1] == candidates[..i] + [item];
      assert candidates[..i + 1][..i] == candidates[..i];
      FilterSnoc(candidates[..i], item, item => ReasonFor(item, lane, w) == Visible);
      var current;
      current, cache := CheckSource(item, w, cache);
      if !current {
        stale := stale + 1;
        continue;
      }
      if "appraisal" in item.kinds && !w.approved(item) {
        unreviewed := unreviewed + 1;
        continue;
      }
      if lane == "orient" && item.actor == "assistant" {
        assistant := assistant + 1;
        continue;
      }
      if !LaneAllows(item, lane) {
        mismatch := mismatch + 1;
        continue;
      }
      visible := visible + [item];
    }
    assert candidates[..|candidates|] == candidates;
    return Ok(Published(visible, Withheld(stale, unreviewed, assistant, mismatch)));
  }

  /** Nothing is lost or counted twice: what is shown and what is counted add up. */
  lemma {:induction false} GateAddsUp(items: seq<Item>, lane: string, w: World)
    ensures var t := Tally(items, lane, w);
      |items| == |Shown(items, lane, w)| + t.staleSource + t.unreviewedAppraisal + t.assistantOrient + t.laneMismatch
  {
    if items != [] {
      var front, last := items[..|items| - 1], items[|items| - 1];
      assert items == front + [last];
      FilterSnoc(front, last, item => ReasonFor(item, lane, w) == Visible);
      GateAddsUp(front, lane, w);
    }
  }

  lemma {:induction false} FilterHas<T>(s: seq<T>, p: T -> bool, x: T)
    ensures x in Filter(s, p) <==> x in s && p(x)
  {
    if s != [] {
      assert s == [s[0]] + s[1..];
      FilterHas(s[1..], p, x);
    }
  }

  /** Every published item is current, reviewed if it is an appraisal, and never the assistant's in the default lane. */
  lemma {:induction false} PublishedIsSafe(items: seq<Item>, lane: string, w: World, item: Item)
    requires item in Shown(items, lane, w)
    ensures item in items && SourceIsCurrent(item, w)
    ensures "appraisal" in item.kinds ==> w.approved(item)
    ensures lane == "orient" ==> item.actor != "assistant"
    ensures LaneAllows(item, lane)
  {
    FilterHas(items, item => ReasonFor(item, lane, w) == Visible, item);
  }

  // ---- The rules written out -------------------------------------------------------------------

  /** The path, seen from the root, goes through this directory. */
  ghost predicate GoesThrough(path: string, dir: string) { exists a, b :: "/" + path == a + dir + b }

  lemma {:induction false} FoundIsPart(s: string, part: string, i: nat)
    requires i <= |s| && FoundAt(s, part, i)
    ensures s == s[..i] + part + s[i + |part|..]
  {
  }

  lemma {:induction false} PartIsFound(a: string, part: string, b: string)
    ensures FoundAt(a + part + b, part, |a|)
  {
  }

  lemma {:induction false} ContainsIsPart(path: string, dir: string)
    ensures Contains("/" + path, dir) <==> GoesThrough(path, dir)
  {
    hide FoundAt;
    var s := "/" + path;
    if Contains(s, dir) {
      var i :| 0 <= i <= |s| && FoundAt(s, dir, i);
      FoundIsPart(s, dir, i);
    }
    if GoesThrough(path, dir) {
      var a, b :| s == a + dir + b;
      PartIsFound(a, dir, b);
    }
  }

  /**
   * Which items are published and why the others are not. An item needs a source whose file still has the recorded
   * digest, and an approval if it is an appraisal. In the default lane the user's own words pass, the assistant's never
   * do, and others pass unless they are old questions or come from raw diaries or backups; the quote and feel lanes ask
   * for their kinds.
   */
  lemma {:induction false} PublicationRule(item: Item, lane: string, w: World)
    ensures var current := item.source.Some? && item.source.value.path != "" && item.source.value.sha256.Some? &&
        item.source.value.sha256.value != "" && w.digestOf(item.source.value.path) == item.source.value.sha256;
      var reviewed := "appraisal" !in item.kinds || w.approved(item);
      var path := if item.source.Some? then item.source.value.path else "";
      var fits :=
        if lane == "quote" then "quote" in item.kinds
        else if lane == "feel" then "emotion" in item.kinds || "sensory_texture" in item.kinds || "diary" in item.kinds
        else if lane == "orient" then
          item.actor == "user" || ("historical_question" !in item.kinds && !GoesThrough(path, "/diary/raw/") &&
            !GoesThrough(path, "/backups/"))
        else true;
      var assistant := lane == "orient" && item.actor == "assistant";
      && (ReasonFor(item, lane, w) == Stale <==> !current)
      && (ReasonFor(item, lane, w) == Unreviewed <==> current && !reviewed)
      && (ReasonFor(item, lane, w) == AssistantOrient <==> current && reviewed && assistant)
      && (ReasonFor(item, lane, w) == Mismatch <==> current && reviewed && !assistant && !fits)
      && (ReasonFor(item, lane, w) == Visible <==> current && reviewed && !assistant && fits)
  {
    hide Contains, GoesThrough;
    var path := if item.source.Some? then item.source.value.path else "";
    ContainsIsPart(path, "/diary/raw/");
    ContainsIsPart(path, "/backups/");
    var feelings := {"emotion", "sensory_texture", "diary"};
    assert forall kind :: kind in item.kinds * feelings <==> kind in item.kinds && kind in feelings;
  }

  /** The places of the items that fall to a test, or to none. */
  function PlacesOf(items: seq<Item>, reason: Reason, lane: string, w: World): set<nat> {
    set i: nat | i < |items| && ReasonFor(items[i], lane, w) == reason
  }

  /** Each count is the number of items withheld for its reason, under its own name. */
  lemma {:induction false} CountsAreExact(items: seq<Item>, lane: string, w: World)
    ensures var t := Tally(items, lane, w);
      && t.staleSource == |PlacesOf(items, Stale, lane, w)|
      && t.unreviewedAppraisal == |PlacesOf(items, Unreviewed, lane, w)|
      && t.assistantOrient == |PlacesOf(items, AssistantOrient, lane, w)|
      && t.laneMismatch == |PlacesOf(items, Mismatch, lane, w)|
  {
    CountIsSize(items, Stale, lane, w);
    CountIsSize(items, Unreviewed, lane, w);
    CountIsSize(items, AssistantOrient, lane, w);
    CountIsSize(items, Mismatch, lane, w);
  }

  lemma {:induction false} CountIsSize(items: seq<Item>, reason: Reason, lane: string, w: World)
    ensures Count(items, reason, lane, w) == |PlacesOf(items, reason, lane, w)|
  {
    hide ReasonFor;
    if items == [] {
      assert PlacesOf(items, reason, lane, w) == {};
    } else {
      var n := |items| - 1;
      CountIsSize(items[..n], reason, lane, w);
      OnePlaceMore(items, reason, lane, w);
      hide PlacesOf;
    }
  }

  lemma {:induction false} OnePlaceMore(items: seq<Item>, reason: Reason, lane: string, w: World)
    requires items != []
    ensures var n := |items| - 1;
      |PlacesOf(items, reason, lane, w)| ==
        |PlacesOf(items[..n], reason, lane, w)| + if ReasonFor(items[n], lane, w) == reason then 1 else 0
  {
    hide ReasonFor;
    var n := |items| - 1;
    var was, now := PlacesOf(items[..n], reason, lane, w), PlacesOf(items, reason, lane, w);
    forall i: nat ensures i in now <==> i in was || (i == n && ReasonFor(items[n], lane, w) == reason) {
      assert i < n ==> items[..n][i] == items[i];
    }
    assert n !in was;
    assert now == was + if ReasonFor(items[n], lane, w) == reason then {n} else {};
  }
}
