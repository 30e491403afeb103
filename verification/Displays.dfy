/** The X11 display allocator. */
module Displays {

  /** n is the least number at or above offset that is not used. */
  ghost predicate LeastFree(used: set<int>, offset: int, n: int) {
    offset <= n && n !in used && forall k :: offset <= k < n ==> k in used
  }

  /** The displays of the live sessions. */
  function Used(displays: map<string, int>): set<int> {
    displays.Values
  }

  /** Live sessions have pairwise different displays, none below the offset. */
  ghost predicate Distinct(displays: map<string, int>, offset: int) {
    && (forall s, t :: s in displays && t in displays && displays[s] == displays[t] ==> s == t)
    && (forall s :: s in displays ==> offset <= displays[s])
  }

  ghost function Range(lo: int, hi: int): (r: set<int>)
    ensures forall k :: k in r <==> lo <= k < hi
    decreases hi - lo
  {
    if lo >= hi then {} else Range(lo, hi - 1) + {hi - 1}
  }

  lemma {:induction false} RangeSize(lo: int, hi: int)
    requires lo <= hi
    ensures |Range(lo, hi)| == hi - lo
    decreases hi - lo
  {
    if lo < hi {
      RangeSize(lo, hi - 1);
    }
  }

  lemma {:induction false} SubsetSize<T>(a: set<T>, b: set<T>)
    requires a <= b
    ensures |a| <= |b|
  {
    if a != {} {
      var x :| x in a;
      SubsetSize(a - {x}, b - {x});
    }
  }

  /** As many used numbers as are in a full range above the offset: the pigeonhole bound. */
  lemma RangeUsed(used: set<int>, offset: int, n: int)
    requires offset <= n && forall k :: offset <= k < n ==> k in used
    ensures n - offset <= |used|
  {
    RangeSize(offset, n);
    SubsetSize(Range(offset, n), used);
  }

  lemma {:induction false} ValuesAtMostKeys(displays: map<string, int>)
    ensures |Used(displays)| <= |displays|
    decreases |displays|
  {
    if displays.Keys != {} {
      var s :| s in displays;
      var rest := displays - {s};
      assert rest.Keys == displays.Keys - {s};
      ValuesAtMostKeys(rest);
      assert Used(displays) <= Used(rest) + {displays[s]} by {
        forall d | d in Used(displays)
          ensures d in Used(rest) + {displays[s]}
        {
          var t :| t in displays && displays[t] == d;
          if t != s {
            assert t in rest && rest[t] == d;
          }
        }
      }
      SubsetSize(Used(displays), Used(rest) + {displays[s]});
    }
  }

  lemma LeastFreeUnique(used: set<int>, offset: int, m: int, n: int)
    requires LeastFree(used, offset, m) && LeastFree(used, offset, n)
    ensures m == n
  {
  }

  class X11Handler {
    const configuredOffset: int
    var displays: map<string, int>

    constructor (configuredOffset: int)
      ensures this.configuredOffset == configuredOffset && displays == map[]
    {
      this.configuredOffset := configuredOffset;
      displays := map[];
    }

    /** getDisplayOffset */
    function Offset(): (offset: int)
      ensures offset > 0
    {
      if configuredOffset > 0 then configuredOffset else 10
    }

    /** isDisplayInUse */
    method IsDisplayInUse(display: int) returns (inUse: bool)
      ensures inUse <==> display in Used(displays)
    {
      var left := displays.Keys;
      while left != {}
        invariant left <= displays.Keys
        invariant forall s :: s in displays && s !in left ==> displays[s] != display
        decreases left
      {
        var s :| s in left;
        if displays[s] == display {
          return true;
        }
        left := left - {s};
      }
      inUse := false;
    }

    /** findAvailableDisplay: the search ends, at the least free number, within as many steps as there are sessions */
    method FindAvailableDisplay(offset: int) returns (display: int)
      ensures LeastFree(Used(displays), offset, display)
      ensures display <= offset + |displays|
    {
      display := offset;
      ValuesAtMostKeys(displays);
      RangeUsed(Used(displays), offset, offset);
      var inUse := IsDisplayInUse(display);
      while inUse
        invariant offset <= display <= offset + |displays|
        invariant forall k :: offset <= k < display ==> k in Used(displays)
        invariant inUse <==> display in Used(displays)
        decreases offset + |displays| - display
      {
        RangeUsed(Used(displays), offset, display + 1);
        display := display + 1;
        inUse := IsDisplayInUse(display);
      }
    }

    /** AllocateDisplay */
    method AllocateDisplay(session: string) returns (display: int)
      modifies this`displays
      ensures displays == old(displays)[session := display]
      ensures LeastFree(Used(old(displays)), Offset(), display)
      ensures LeastFree(Used(old(displays)), if configuredOffset > 0 then configuredOffset else 10, display)
      ensures Offset() <= display <= Offset() + |old(displays)|
      ensures old(Distinct(displays, Offset())) && session !in old(displays) ==> Distinct(displays, Offset())
      ensures session !in old(displays) ==>
                Possible(old(displays), Offset(), Allocate(session, display)) &&
                displays == Happen(old(displays), Allocate(session, display))
    {
      display := FindAvailableDisplay(Offset());
      displays := displays[session := display];
    }

    /** The function that createCleanupFunc returns for this session. */
    method Cleanup(session: string)
      modifies this`displays
      ensures displays == old(displays) - {session}
      ensures old(Distinct(displays, Offset())) ==> Distinct(displays, Offset())
      ensures session in old(displays) && old(Distinct(displays, Offset())) ==>
                Used(displays) == Used(old(displays)) - {old(displays)[session]}
    {
      displays := displays - {session};
      if session in old(displays) && old(Distinct(displays, Offset())) {
        FreesItsDisplay(old(displays), session, Offset());
      }
    }
  }

  lemma FreesItsDisplay(displays: map<string, int>, session: string, offset: int)
    requires session in displays && Distinct(displays, offset)
    ensures Used(displays - {session}) == Used(displays) - {displays[session]}
  {
    var rest := displays - {session};
    forall d
      ensures d in Used(rest) <==> d in Used(displays) && d != displays[session]
    {
      if d in Used(displays) && d != displays[session] {
        var t :| t in displays && displays[t] == d;
        assert t in rest;
      }
      if d in Used(rest) {
        var t :| t in rest && rest[t] == d;
        assert t in displays && displays[t] == d;
      }
    }
  }

  // ------------------------------------------------------------------- whole runs

  datatype Event = Allocate(session: string, display: int) | Release(session: string)

  /** The event can happen to these displays: a new session gets the least free number. */
  ghost predicate Possible(displays: map<string, int>, offset: int, e: Event) {
    match e
    case Allocate(session, display) => session !in displays && LeastFree(Used(displays), offset, display)
    case Release(_) => true
  }

  function Happen(displays: map<string, int>, e: Event): map<string, int> {
    match e
    case Allocate(session, display) => displays[session := display]
    case Release(session) => displays - {session}
  }

  ghost predicate PossibleRun(displays: map<string, int>, offset: int, events: seq<Event>)
    decreases |events|
  {
    events == [] ||
    (Possible(displays, offset, events[0]) && PossibleRun(Happen(displays, events[0]), offset, events[1..]))
  }

  function HappenAll(displays: map<string, int>, events: seq<Event>): map<string, int>
    decreases |events|
  {
    if events == [] then displays else HappenAll(Happen(displays, events[0]), events[1..])
  }

  /**
    Over any run of allocations and releases, live sessions have different displays, and the next
    allocation gets a number, the only one possible, of at most offset plus the number of live sessions.
   */
  lemma {:induction false} RunKeepsDisplaysDistinct(displays: map<string, int>, offset: int, events: seq<Event>,
      display: int)
    requires Distinct(displays, offset) && PossibleRun(displays, offset, events)
    requires LeastFree(Used(HappenAll(displays, events)), offset, display)
    ensures Distinct(HappenAll(displays, events), offset)
    ensures display <= offset + |HappenAll(displays, events)|
    ensures forall n :: LeastFree(Used(HappenAll(displays, events)), offset, n) ==> n == display
    decreases |events|
  {
    if events != [] {
      RunKeepsDisplaysDistinct(Happen(displays, events[0]), offset, events[1..], display);
    } else {
      ValuesAtMostKeys(displays);
      RangeUsed(Used(displays), offset, display);
      forall n | LeastFree(Used(displays), offset, n)
        ensures n == display
      {
        LeastFreeUnique(Used(displays), offset, n, display);
      }
    }
  }
}
