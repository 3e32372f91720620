/** ROLLING_WINDOWS: one `deque(maxlen=5)` per known category, holding the most
    recent decoded messages of that category in arrival order. */
module Window {
  import opened Payload

  /** The `maxlen` every window is created with. */
  const Capacity: nat := 5

  /** The categories that have a window; 'unknown' is not one of them. */
  const Categories: set<string> := {"electronics", "furniture", "art"}

  type Windows = map<string, seq<Json>>

  /** No window holds more than Capacity messages. */
  predicate Bounded(windows: Windows)
  {
    forall c :: c in windows ==> |windows[c]| <= Capacity
  }

  function Min(a: int, b: int): int
  {
    if a <= b then a else b
  }

  /** The last min(|s|, n) elements of s, in their original order. */
  function LastN<T>(s: seq<T>, n: nat): (r: seq<T>)
    ensures |r| == Min(|s|, n)
    ensures r == s[|s| - |r|..]
  {
    if |s| <= n then s else s[|s| - n..]
  }

  /** The window after `deque.append(message)` on a deque with maxlen Capacity:
      the newest Capacity messages of the old window followed by the new one. */
  function Appended(window: seq<Json>, message: Json): (r: seq<Json>)
    ensures |r| == Min(|window| + 1, Capacity)
    ensures r[|r| - 1] == message
    ensures r[..|r| - 1] == window[|window| + 1 - |r|..]
  {
    var grown := window + [message];
    assert grown[..|grown| - 1] == window;
    LastN(grown, Capacity)
  }

  /** On a full window an append evicts exactly the oldest message (FIFO). */
  lemma AppendToFullEvictsOldest(window: seq<Json>, message: Json)
    requires |window| == Capacity
    ensures Appended(window, message) == window[1..] + [message]
  {
    var r := Appended(window, message);
    assert r[..|r| - 1] == window[1..];
  }

  /** The window after appending `messages` one by one, first to last. */
  function AppendAll(window: seq<Json>, messages: seq<Json>): seq<Json>
    decreases |messages|
  {
    if messages == [] then window else AppendAll(Appended(window, messages[0]), messages[1..])
  }

  /** Trimming early never changes what the last n elements are. */
  lemma LastNAbsorbs<T>(s: seq<T>, t: seq<T>, n: nat)
    ensures LastN(LastN(s, n) + t, n) == LastN(s + t, n)
  {
    var k := |s| - Min(|s|, n);
    assert s == s[..k] + LastN(s, n);
    assert s + t == s[..k] + (LastN(s, n) + t);
  }

  /** Appending one message and trimming, then adding more, leaves the same
      newest messages as adding them all at once. */
  lemma AppendedThenMore(window: seq<Json>, message: Json, later: seq<Json>)
    ensures LastN(Appended(window, message) + later, Capacity) == LastN(window + ([message] + later), Capacity)
  {
    LastNAbsorbs(window + [message], later, Capacity);
    assert window + [message] + later == window + ([message] + later);
  }

  /** A run of appends leaves exactly the last Capacity messages of the old
      window followed by the appended ones, in arrival order. */
  lemma {:induction false} AppendAllKeepsNewest(window: seq<Json>, messages: seq<Json>)
    requires |window| <= Capacity
    ensures AppendAll(window, messages) == LastN(window + messages, Capacity)
    decreases |messages|
  {
    if messages == [] {
      assert window + messages == window;
    } else {
      var rest := messages[1..];
      AppendAllKeepsNewest(Appended(window, messages[0]), rest);
      AppendedThenMore(window, messages[0], rest);
      assert [messages[0]] + rest == messages;
    }
  }

  /** Starting from an empty window, after k appends the window holds
      min(k, Capacity) messages: the last ones appended, oldest first. */
  lemma WindowAfterAppends(messages: seq<Json>)
    ensures |AppendAll([], messages)| == Min(|messages|, Capacity)
    ensures AppendAll([], messages) == messages[|messages| - Min(|messages|, Capacity)..]
  {
    AppendAllKeepsNewest([], messages);
    assert [] + messages == messages;
  }

  /** The module-level ROLLING_WINDOWS mapping, mutated in place by the callback. */
  class WindowStore {
    var windows: Windows

    /** The key set is the configured categories and every deque respects its maxlen. */
    ghost predicate Valid()
      reads this
    {
      windows.Keys == Categories && Bounded(windows)
    }

    /** One empty deque per configured category. */
    constructor ()
      ensures Valid()
      ensures forall c :: c in windows ==> windows[c] == []
    {
      windows := map["electronics" := [], "furniture" := [], "art" := []];
    }

    /** `ROLLING_WINDOWS[category].append(message)`: add on the right, then
        drop from the left if the deque grew past its maxlen. */
    method Append(category: string, message: Json)
      requires Valid() && category in windows
      modifies this
      ensures Valid()
      ensures windows == old(windows)[category := Appended(old(windows)[category], message)]
    {
      var deque := windows[category] + [message];
      if |deque| > Capacity {
        deque := deque[1..];
      }
      windows := windows[category := deque];
    }
  }
}
