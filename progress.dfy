/** The progress tracker of a repository operation (bdl/progress.py): the
    list of entries and the index lists of the entries in flight, finished
    and failed. The lock around every operation is left out: operations are
    taken one at a time. `time.time()` is the parameter `now`. */
module Progresses {
  import opened Wrappers
  import opened Errors

  /** One entry dictionary: its URL, begin and end times (-1 when unset)
      and its download percentage. */
  datatype Entry = Entry(url: string, begin: real, end: real, percentage: int)

  /** `ProgressState(count, finished, failed, percentage)`. */
  datatype State = State(count: int, finished: nat, failed: nat, percentage: real)

  /** The list `__mark` appends to: none for `update`, the finished list for
      `mark_finished`, the failed list for `mark_failed`. */
  datatype Target = NoTarget | FinishedList | FailedList

  /** The entry `add` appends: `percentage > 0 and curtime or -1` begins it
      and `percentage < 100 and curtime or -1` ends it, where a clock reading
      of 0.0 is false too. */
  function NewEntry(url: string, percentage: int, now: real): (e: Entry)
    ensures e.url == url && e.percentage == percentage
    ensures e.begin == (if percentage > 0 && now != 0.0 then now else -1.0)
    ensures e.end == (if percentage < 100 && now != 0.0 then now else -1.0)
  {
    Entry(url, if percentage > 0 && now != 0.0 then now else -1.0,
          if percentage < 100 && now != 0.0 then now else -1.0, percentage)
  }

  /** The index `add` pushes onto the in-flight list: the 0-based index of
      the last entry before the append, or 0 when there is none. */
  function CurrentIndex(entries: seq<Entry>): (k: nat)
    ensures entries == [] ==> k == 0
    ensures entries != [] ==> k == |entries| - 1
  {
    if |entries| > 0 then |entries| - 1 else 0
  }

  /** The 1-based positions `__mark` counts for the entries with `url`, in
      list order. */
  function Positions(entries: seq<Entry>, url: string): (ps: seq<int>)
    ensures |ps| <= |entries|
    decreases |entries|
  {
    if entries == [] then []
    else
      var n := |entries|;
      Positions(entries[..n - 1], url) + (if entries[n - 1].url == url then [n] else [])
  }

  /** Every listed position is in range and names an entry with the URL. */
  lemma {:induction false} PositionsSound(entries: seq<Entry>, url: string)
    ensures forall k :: 0 <= k < |Positions(entries, url)| ==>
              1 <= Positions(entries, url)[k] <= |entries| && entries[Positions(entries, url)[k] - 1].url == url
    decreases |entries|
  {
    if entries != [] {
      var n := |entries|;
      var front := entries[..n - 1];
      PositionsSound(front, url);
      var before := Positions(front, url);
      var ps := Positions(entries, url);
      assert ps == before + (if entries[n - 1].url == url then [n] else []);
      forall k | 0 <= k < |ps|
        ensures 1 <= ps[k] <= |entries| && entries[ps[k] - 1].url == url
      {
        if k < |before| {
          assert ps[k] == before[k];
          assert front[before[k] - 1] == entries[before[k] - 1];
        }
      }
    }
  }

  /** Counting one more entry adds its position when it has the URL. */
  lemma PositionsSnoc(entries: seq<Entry>, pos: nat, url: string)
    requires pos < |entries|
    ensures Positions(entries[..pos + 1], url)
            == Positions(entries[..pos], url) + (if entries[pos].url == url then [pos + 1] else [])
  {
    assert entries[..pos + 1][..pos] == entries[..pos];
  }

  /** Every entry with the URL has its 1-based position listed. */
  lemma {:induction false} PositionsComplete(entries: seq<Entry>, url: string, i: int)
    requires 0 <= i < |entries| && entries[i].url == url
    ensures i + 1 in Positions(entries, url)
    decreases |entries|
  {
    var n := |entries|;
    if i < n - 1 {
      PositionsComplete(entries[..n - 1], url, i);
    }
  }

  /** An unknown URL has no positions. */
  lemma {:induction false} PositionsOfUnknown(entries: seq<Entry>, url: string)
    requires forall i :: 0 <= i < |entries| ==> entries[i].url != url
    ensures Positions(entries, url) == []
    decreases |entries|
  {
    if entries != [] {
      PositionsOfUnknown(entries[..|entries| - 1], url);
    }
  }

  /** `list.remove(x)` with its ValueError swallowed: the first `x` is
      dropped, and a list without `x` is kept as it is. */
  function RemoveFirst(s: seq<int>, x: int): (r: seq<int>)
    ensures x !in s ==> r == s
    ensures x in s ==> |r| == |s| - 1 && multiset(r) == multiset(s) - multiset{x}
    decreases |s|
  {
    if s == [] then []
    else
      assert s == [s[0]] + s[1..];
      if s[0] == x then s[1..] else [s[0]] + RemoveFirst(s[1..], x)
  }

  /** The in-flight list after each position of `ps` was removed in turn. */
  function RemoveAll(s: seq<int>, ps: seq<int>): seq<int>
    decreases |ps|
  {
    if ps == [] then s else RemoveFirst(RemoveAll(s, ps[..|ps| - 1]), ps[|ps| - 1])
  }

  /** Removing one more position removes it from the list left so far. */
  lemma RemoveAllSnoc(s: seq<int>, ps: seq<int>, x: int)
    ensures RemoveAll(s, ps + [x]) == RemoveFirst(RemoveAll(s, ps), x)
  {
    assert (ps + [x])[..|ps|] == ps;
  }

  /** Removing never adds: the in-flight list only shrinks, and every
      position left was there before. */
  lemma {:induction false} RemoveAllShrinks(s: seq<int>, ps: seq<int>)
    ensures |RemoveAll(s, ps)| <= |s|
    ensures multiset(RemoveAll(s, ps)) <= multiset(s)
    decreases |ps|
  {
    if ps != [] {
      RemoveAllShrinks(s, ps[..|ps| - 1]);
    }
  }

  /** An entry after `__mark`'s keyword updates: the percentage, when one
      is given, on entries with the URL. */
  function Retag(e: Entry, url: string, percentage: Option<int>): (r: Entry)
    ensures r.url == e.url && r.begin == e.begin && r.end == e.end
    ensures r.percentage == (if e.url == url && percentage.Some? then percentage.value else e.percentage)
  {
    if e.url == url && percentage.Some? then e.(percentage := percentage.value) else e
  }

  /** The in-flight, finished and failed index lists. */
  datatype Lists = Lists(currents: seq<int>, finished: seq<int>, failed: seq<int>)

  /** Moving one position: out of the in-flight list (when it is there) and
      onto the end of the target list; no target changes nothing. */
  function MoveTo(l: Lists, p: int, target: Target): (r: Lists)
    ensures target.NoTarget? ==> r == l
    ensures !target.NoTarget? ==> r.currents == RemoveFirst(l.currents, p)
    ensures target.FinishedList? ==> r.finished == l.finished + [p] && r.failed == l.failed
    ensures target.FailedList? ==> r.failed == l.failed + [p] && r.finished == l.finished
  {
    match target
    case NoTarget => l
    case FinishedList => Lists(RemoveFirst(l.currents, p), l.finished + [p], l.failed)
    case FailedList => Lists(RemoveFirst(l.currents, p), l.finished, l.failed + [p])
  }

  /** A move loses no position: one that was in flight is transferred to
      the target list, so the three lists together hold the same positions;
      one that was not in flight is added to the target list all the same. */
  lemma MoveToConserves(l: Lists, p: int, target: Target)
    requires !target.NoTarget?
    ensures var r := MoveTo(l, p, target);
            && (p in l.currents ==>
                  multiset(r.currents + r.finished + r.failed) == multiset(l.currents + l.finished + l.failed))
            && (p !in l.currents ==>
                  multiset(r.currents + r.finished + r.failed)
                  == multiset(l.currents + l.finished + l.failed) + multiset{p})
  {
    var r := MoveTo(l, p, target);
    assert multiset(r.currents + r.finished + r.failed)
           == multiset(r.currents) + multiset(r.finished) + multiset(r.failed);
    assert multiset(l.currents + l.finished + l.failed)
           == multiset(l.currents) + multiset(l.finished) + multiset(l.failed);
  }

  /** The lists after the positions `ps` were moved to the target. */
  function MarkedLists(l: Lists, ps: seq<int>, target: Target): Lists
  {
    match target
    case NoTarget => l
    case FinishedList => Lists(RemoveAll(l.currents, ps), l.finished + ps, l.failed)
    case FailedList => Lists(RemoveAll(l.currents, ps), l.finished, l.failed + ps)
  }

  /** Moving the positions one at a time is moving them all. */
  lemma MarkedSnoc(l: Lists, ps: seq<int>, p: int, target: Target)
    ensures MarkedLists(l, ps + [p], target) == MoveTo(MarkedLists(l, ps, target), p, target)
  {
    if !target.NoTarget? {
      RemoveAllSnoc(l.currents, ps, p);
      assert l.finished + (ps + [p]) == l.finished + ps + [p];
      assert l.failed + (ps + [p]) == l.failed + ps + [p];
    }
  }

  /** A URL no entry has moves nothing: the lists stay as they are. */
  lemma UnknownUrlMovesNothing(l: Lists, entries: seq<Entry>, url: string, target: Target)
    requires forall i :: 0 <= i < |entries| ==> entries[i].url != url
    ensures MarkedLists(l, Positions(entries, url), target) == l
  {
    PositionsOfUnknown(entries, url);
    assert l.finished + [] == l.finished;
    assert l.failed + [] == l.failed;
  }

  /** One more entry of `__mark`'s loop: its position moves when it has
      the URL. */
  lemma MarkStep(l: Lists, entries: seq<Entry>, pos: nat, url: string, target: Target)
    requires pos < |entries|
    ensures var before := MarkedLists(l, Positions(entries[..pos], url), target);
            MarkedLists(l, Positions(entries[..pos + 1], url), target)
            == (if entries[pos].url == url then MoveTo(before, pos + 1, target) else before)
  {
    var ps := Positions(entries[..pos], url);
    PositionsSnoc(entries, pos, url);
    if entries[pos].url == url {
      MarkedSnoc(l, ps, pos + 1, target);
    } else {
      assert ps + [] == ps;
    }
  }

  /** Python's `list[k]`: a negative index counts from the end. */
  function PyIndex(entries: seq<Entry>, k: int): (r: Result<Entry>)
    ensures r.Ok? <==> -|entries| <= k < |entries|
    ensures 0 <= k < |entries| ==> r == Ok(entries[k])
  {
    if 0 <= k < |entries| then Ok(entries[k])
    else if -|entries| <= k < 0 then Ok(entries[|entries| + k])
    else Err(Builtin("IndexError", "list index out of range"))
  }

  /** The entries a container's indices select, in container order; the
      first index out of range raises IndexError. */
  function Selected(entries: seq<Entry>, container: seq<int>): (r: Result<seq<Entry>>)
    ensures r.Ok? ==> |r.value| == |container|
    ensures r.Ok? <==> forall k :: 0 <= k < |container| ==> PyIndex(entries, container[k]).Ok?
    decreases |container|
  {
    if container == [] then Ok([])
    else
      var n := |container|;
      var front := Selected(entries, container[..n - 1]);
      var last := PyIndex(entries, container[n - 1]);
      if front.Err? then front
      else if last.Err? then Err(last.error)
      else Ok(front.value + [last.value])
  }

  /** Selecting in-range, non-negative indices reads the entries they
      name. */
  lemma {:induction false} SelectedReads(entries: seq<Entry>, container: seq<int>)
    requires forall k :: 0 <= k < |container| ==> 0 <= container[k] < |entries|
    ensures Selected(entries, container).Ok?
    ensures forall k :: 0 <= k < |container| ==> Selected(entries, container).value[k] == entries[container[k]]
    decreases |container|
  {
    if container != [] {
      SelectedReads(entries, container[..|container| - 1]);
    }
  }

  /** As written, `add` records the 0-based index of the previous entry
      while `__mark` works with 1-based positions: after adding one URL and
      marking it finished, the in-flight list still holds index 0 and the
      finished list holds 1, which is past the only entry, so reading the
      finished entries raises IndexError. */
  lemma FirstEntryFinishedQuirk(url: string, percentage: int, now: real)
    ensures var entries := [NewEntry(url, percentage, now)];
            && Positions(entries, url) == [1]
            && RemoveAll([CurrentIndex([])], Positions(entries, url)) == [0]
            && Selected(entries, [] + Positions(entries, url)).Err?
  {
    var entries := [NewEntry(url, percentage, now)];
    assert entries[..0] == [];
    assert Positions(entries, url) == [1];
    assert [1][..0] == [];
    assert RemoveAll([0], [1]) == RemoveFirst([0], 1);
    assert ([] + [1])[..0] == [];
  }

  class Progress {
    var entries: seq<Entry>
    var currents: seq<int>
    var finished: seq<int>
    var failed: seq<int>
    var count: int
    var name: Option<string>

    /** `Progress(count, name)`: reset, then the count and the name. */
    constructor (count: int, name: Option<string>)
      ensures entries == [] && currents == [] && finished == [] && failed == []
      ensures this.count == count && this.name == name
    {
      entries := [];
      currents := [];
      finished := [];
      failed := [];
      this.count := count;
      this.name := name;
    }

    /** `reset()` (progress.py:26-35). */
    method Reset()
      modifies this
      ensures entries == [] && currents == [] && finished == [] && failed == []
      ensures count == 0 && name == None
    {
      entries := [];
      currents := [];
      finished := [];
      failed := [];
      count := 0;
      name := None;
    }

    /** The `count` getter. */
    function Count(): int
      reads this
    {
      count
    }

    /** The `count` setter: the getter reads back the value set, and
        nothing else changes. */
    method SetCount(value: int)
      modifies this`count
      ensures Count() == value
    {
      count := value;
    }

    method SetName(value: Option<string>)
      modifies this`name
      ensures name == value
    {
      name := value;
    }

    /** `add(url, percentage)` (progress.py:57-75): one entry, one in-flight
        index. */
    method Add(url: string, percentage: int, now: real)
      modifies this`entries, this`currents
      ensures entries == old(entries) + [NewEntry(url, percentage, now)]
      ensures currents == old(currents) + [CurrentIndex(old(entries))]
    {
      var curpos := if |entries| > 0 then |entries| - 1 else 0;
      entries := entries + [NewEntry(url, percentage, now)];
      currents := currents + [curpos];
    }

    /** `__mark(url, new_container, **kwargs)` (progress.py:77-99): every
        entry with the URL, counted from 1, has its position moved from the
        in-flight list to the target list, when there is one, and gets the
        given percentage. */
    method Mark(url: string, target: Target, percentage: Option<int>)
      modifies this`entries, this`currents, this`finished, this`failed
      ensures |entries| == |old(entries)|
      ensures forall i :: 0 <= i < |entries| ==> entries[i] == Retag(old(entries)[i], url, percentage)
      ensures target.NoTarget? ==> currents == old(currents)
      ensures !target.NoTarget? ==> currents == RemoveAll(old(currents), Positions(old(entries), url))
      ensures target.FinishedList? ==> finished == old(finished) + Positions(old(entries), url)
      ensures target.FailedList? ==> failed == old(failed) + Positions(old(entries), url)
      ensures !target.FinishedList? ==> finished == old(finished)
      ensures !target.FailedList? ==> failed == old(failed)
    {
      var pos := 0;
      while pos < |entries|
        invariant 0 <= pos <= |entries| == |old(entries)|
        invariant forall i :: 0 <= i < pos ==> entries[i] == Retag(old(entries)[i], url, percentage)
        invariant forall i :: pos <= i < |entries| ==> entries[i] == old(entries)[i]
        invariant ListsNow() == MarkedLists(old(ListsNow()), Positions(old(entries)[..pos], url), target)
      {
        MarkStep(old(ListsNow()), old(entries), pos, url, target);
        MarkOne(pos, url, target, percentage);
        pos := pos + 1;
      }
      assert old(entries)[..pos] == old(entries);
    }

    /** The three index lists as one value. */
    function ListsNow(): Lists
      reads this
    {
      Lists(currents, finished, failed)
    }

    /** The body of `__mark`'s loop for the entry at 0-based index `pos`,
        whose 1-based position is `pos + 1`. */
    method MarkOne(pos: nat, url: string, target: Target, percentage: Option<int>)
      requires pos < |entries|
      modifies this`entries, this`currents, this`finished, this`failed
      ensures entries == old(entries)[pos := Retag(old(entries)[pos], url, percentage)]
      ensures ListsNow() == (if old(entries)[pos].url == url then MoveTo(old(ListsNow()), pos + 1, target)
                             else old(ListsNow()))
    {
      var entry := entries[pos];
      if entry.url == url {
        if !target.NoTarget? {
          currents := RemoveFirst(currents, pos + 1);
          if target.FinishedList? {
            finished := finished + [pos + 1];
          } else {
            failed := failed + [pos + 1];
          }
        }
        if percentage.Some? {
          entries := entries[pos := entry.(percentage := percentage.value)];
        }
      }
    }

    /** `update(url, percentage)`: the percentage of every entry with the
        URL; no list changes. */
    method Update(url: string, percentage: int)
      modifies this`entries, this`currents, this`finished, this`failed
      ensures |entries| == |old(entries)|
      ensures forall i :: 0 <= i < |entries| ==>
                entries[i] == (if old(entries)[i].url == url then old(entries)[i].(percentage := percentage)
                               else old(entries)[i])
      ensures currents == old(currents) && finished == old(finished) && failed == old(failed)
    {
      Mark(url, NoTarget, Some(percentage));
    }

    /** `mark_finished(url)`. */
    method MarkFinished(url: string)
      modifies this`entries, this`currents, this`finished, this`failed
      ensures entries == old(entries) && failed == old(failed)
      ensures currents == RemoveAll(old(currents), Positions(old(entries), url))
      ensures finished == old(finished) + Positions(old(entries), url)
    {
      Mark(url, FinishedList, None);
    }

    /** `mark_failed(url)`. */
    method MarkFailed(url: string)
      modifies this`entries, this`currents, this`finished, this`failed
      ensures entries == old(entries) && finished == old(finished)
      ensures currents == RemoveAll(old(currents), Positions(old(entries), url))
      ensures failed == old(failed) + Positions(old(entries), url)
    {
      Mark(url, FailedList, None);
    }

    /** The `total` property (progress.py:126-138). */
    function Total(): (s: State)
      reads this
      ensures s.count == count && s.finished == |finished| && s.failed == |failed|
      ensures count <= 0 ==> s.percentage == 0.0
      ensures count > 0 ==> s.percentage * (count as real) == (|entries| as real) * 100.0
    {
      State(count, |finished|, |failed|,
            if count > 0 then (|entries| as real) / (count as real) * 100.0 else 0.0)
    }

    /** `__get_container(container)` (progress.py:140-147): the entries the
        indices select, in order, or IndexError. */
    method GetContainer(container: seq<int>) returns (r: Result<seq<Entry>>)
      ensures r == Selected(entries, container)
    {
      var items: seq<Entry> := [];
      var i := 0;
      while i < |container|
        invariant 0 <= i <= |container|
        invariant Selected(entries, container[..i]) == Ok(items)
      {
        assert container[..i + 1][..i] == container[..i];
        var k := container[i];
        if 0 <= k < |entries| {
          items := items + [entries[k]];
        } else if -|entries| <= k < 0 {
          items := items + [entries[|entries| + k]];
        } else {
          assert Selected(entries, container[..i + 1]).Err?;
          SelectedErrStays(entries, container, i + 1);
          return Err(Builtin("IndexError", "list index out of range"));
        }
        i := i + 1;
      }
      assert container[..i] == container;
      r := Ok(items);
    }

    /** The `currents`, `finished` and `failed` properties. */
    method Currents() returns (r: Result<seq<Entry>>)
      ensures r == Selected(entries, currents)
    {
      r := GetContainer(currents);
    }

    method Finished() returns (r: Result<seq<Entry>>)
      ensures r == Selected(entries, finished)
    {
      r := GetContainer(finished);
    }

    method Failed() returns (r: Result<seq<Entry>>)
      ensures r == Selected(entries, failed)
    {
      r := GetContainer(failed);
    }
  }

  /** Once a prefix fails, the whole selection fails with the same error. */
  lemma {:induction false} SelectedErrStays(entries: seq<Entry>, container: seq<int>, n: nat)
    requires n <= |container| && Selected(entries, container[..n]).Err?
    ensures Selected(entries, container) == Selected(entries, container[..n])
    decreases |container| - n
  {
    if n < |container| {
      assert container[..n + 1][..n] == container[..n];
      SelectedErrStays(entries, container, n + 1);
    } else {
      assert container[..n] == container;
    }
  }
}
