/**
 The event translator of the file monitoring service: the closed vocabulary
 `FileObserverEvent`, the raw codes the platform delivers for each member, and
 the conversion of a raw code into a member, which fails (Kotlin's
 `NoSuchElementException`, modelled as `None`) when no member has that code.
 */
module FileObserverEvents {
  import opened Wrappers

  /** The raw event codes of `android.os.FileObserver`, which are the Linux inotify event-mask bits. */
  const ACCESS: int := 0x0000_0001
  const MODIFY: int := 0x0000_0002
  const ATTRIB: int := 0x0000_0004
  const CLOSE_WRITE: int := 0x0000_0008
  const CLOSE_NOWRITE: int := 0x0000_0010
  const OPEN: int := 0x0000_0020
  const MOVED_FROM: int := 0x0000_0040
  const MOVED_TO: int := 0x0000_0080
  const CREATE: int := 0x0000_0100
  const DELETE: int := 0x0000_0200
  const DELETE_SELF: int := 0x0000_0400
  const MOVE_SELF: int := 0x0000_0800
  /** The union of the twelve single-event bits above. */
  const ALL_EVENTS: int := 0x0000_0FFF

  /** The twelve single inotify bits that the members other than `AllEvents` stand for. */
  const SingleBits: set<int> := {
    ACCESS, MODIFY, ATTRIB, CLOSE_WRITE, CLOSE_NOWRITE, OPEN,
    MOVED_FROM, MOVED_TO, CREATE, DELETE, DELETE_SELF, MOVE_SELF
  }

  datatype FileObserverEvent =
    | Access | AllEvents | Attrib | CloseNoWrite | CloseWrite | Create | Delete
    | DeleteSelf | Modify | MovedFrom | MovedTo | MoveSelf | Open

  /**
   The `rawValue` each enum member is declared with: one single inotify bit for
   every member but `AllEvents`, and the whole mask for `AllEvents`.
   */
  function RawValue(e: FileObserverEvent): (r: int)
    ensures 0 < r <= ALL_EVENTS
    ensures e != AllEvents <==> r in SingleBits
    ensures e == AllEvents <==> r == ALL_EVENTS
  {
    match e
    case Access => ACCESS
    case AllEvents => ALL_EVENTS
    case Attrib => ATTRIB
    case CloseNoWrite => CLOSE_NOWRITE
    case CloseWrite => CLOSE_WRITE
    case Create => CREATE
    case Delete => DELETE
    case DeleteSelf => DELETE_SELF
    case Modify => MODIFY
    case MovedFrom => MOVED_FROM
    case MovedTo => MOVED_TO
    case MoveSelf => MOVE_SELF
    case Open => OPEN
  }

  /** `FileObserverEvent.values().toList()`: every member, in declaration order. */
  const Values: seq<FileObserverEvent> :=
    [Access, AllEvents, Attrib, CloseNoWrite, CloseWrite, Create, Delete,
     DeleteSelf, Modify, MovedFrom, MovedTo, MoveSelf, Open]

  lemma ValuesListsEveryMember(e: FileObserverEvent)
    ensures e in Values
  {
  }

  /** No two different elements of `xs` share a key. */
  ghost predicate DistinctKeys<T>(xs: seq<T>, key: T -> int)
  {
    forall i, j :: 0 <= i < |xs| && 0 <= j < |xs| && xs[i] != xs[j] ==> key(xs[i]) != key(xs[j])
  }

  /**
   Kotlin's `xs.first { key(it) == code }`: the earliest element whose key is
   exactly `code`, or `None` where `first` throws.
   */
  function FirstWithKey<T>(xs: seq<T>, key: T -> int, code: int): (r: Option<T>)
    ensures r.None? <==> forall i :: 0 <= i < |xs| ==> key(xs[i]) != code
    ensures r.Some? ==>
      exists k :: 0 <= k < |xs| && xs[k] == r.value && key(xs[k]) == code &&
                  forall j :: 0 <= j < k ==> key(xs[j]) != code
    decreases |xs|
  {
    if xs == [] then None
    else if key(xs[0]) == code then Some(xs[0])
    else
      var r := FirstWithKey(xs[1..], key, code);
      assert forall i :: 0 < i < |xs| ==> xs[i] == xs[1..][i - 1];
      r
  }

  /** Searching by an element's own key finds that element, whatever the order, when keys are distinct. */
  lemma FirstWithKeyFindsOwnKey<T>(xs: seq<T>, key: T -> int, x: T)
    requires x in xs
    requires DistinctKeys(xs, key)
    ensures FirstWithKey(xs, key, key(x)) == Some(x)
  {
  }

  lemma RawValuesDistinct()
    ensures DistinctKeys(Values, RawValue)
  {
  }

  /** `Int.toFileObserverEvent()`. */
  function ToFileObserverEvent(code: int): (r: Option<FileObserverEvent>)
    ensures r.Some? ==> RawValue(r.value) == code
    ensures r.None? <==> forall e :: RawValue(e) != code
  {
    var r := FirstWithKey(Values, RawValue, code);
    assert r.None? ==> forall e :: RawValue(e) != code by {
      forall e ensures r.None? ==> RawValue(e) != code {
        ValuesListsEveryMember(e);
      }
    }
    r
  }

  /** Translating a member's raw value gives that member back. */
  lemma ToFileObserverEventRoundTrip(e: FileObserverEvent)
    ensures ToFileObserverEvent(RawValue(e)) == Some(e)
  {
    ValuesListsEveryMember(e);
    RawValuesDistinct();
    FirstWithKeyFindsOwnKey(Values, RawValue, e);
  }

  /** A translated code is the raw value of exactly the member returned. */
  lemma ToFileObserverEventInverse(code: int, e: FileObserverEvent)
    ensures ToFileObserverEvent(code) == Some(e) <==> RawValue(e) == code
  {
    if RawValue(e) == code {
      ToFileObserverEventRoundTrip(e);
    }
  }

  /**
   A mask with at least two of the twelve event bits set, other than the whole
   `ALL_EVENTS` union, is no member's raw value: unions are never matched bit
   by bit, only the exact `ALL_EVENTS` mask is recognised.
   */
  lemma PartialUnionRejected(m: bv12)
    requires m & (m - 1) != 0 && m != 0xFFF
    ensures ToFileObserverEvent(m as int) == None
  {
    forall e ensures RawValue(e) != m as int {
      // brings RawValue's contract about e into scope
      var r := RawValue(e);
    }
  }

  lemma ExampleCodes()
    ensures ToFileObserverEvent(MODIFY) == Some(Modify)
    ensures ToFileObserverEvent(ALL_EVENTS) == Some(AllEvents)
    ensures ToFileObserverEvent(0xFFF_FFFF) == None
    ensures ToFileObserverEvent(0) == None
  {
    ToFileObserverEventRoundTrip(Modify);
    ToFileObserverEventRoundTrip(AllEvents);
    forall e ensures RawValue(e) != 0xFFF_FFFF && RawValue(e) != 0 {
      // brings RawValue's contract about e into scope
      var r := RawValue(e);
    }
  }
}
