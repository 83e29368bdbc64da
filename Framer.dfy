/**
 * The sliding-window framer. Every payload sent to `framer.input` is split
 * into up to three copies whose correlation ids are the current counter value
 * and the two before it; the aggregator gathers each correlation id into a
 * group, releases a group as the list of its payloads once it holds a whole
 * sequence (three messages) and drops the released group from the message
 * store. The released lists are the sliding windows `[p_k, p_k+1, p_k+2]`.
 */
module FramerApplication {
  import opened JavaLang

  /** `IntStream.range(0, 3)` and `setSequenceSize(3)`: the width of a window. */
  const WINDOW_SIZE: nat := 3

  /** A message built by the splitter: the payload and the correlation headers it sets. */
  datatype Message<T> = Message(payload: T, correlationId: int, sequenceNumber: nat, sequenceSize: nat)

  function Min(a: int, b: int): int
  {
    if a <= b then a else b
  }

  // ----- the splitter's stream -----------------------------------------------

  /** `IntStream.range(0, n).map(...)`: entry `s` has correlation id `key - s` and sequence number `s`. */
  function Entries<T>(payload: T, key: int, n: nat): (ms: seq<Message<T>>)
    ensures |ms| == n
  {
    if n == 0 then [] else Entries(payload, key, n - 1) + [Message(payload, key - (n - 1), n - 1, WINDOW_SIZE)]
  }

  /** `filter(entry -> entry.getKey() >= 0)`, keeping the order of the stream. */
  function KeepNonNegative<T>(ms: seq<Message<T>>): (r: seq<Message<T>>)
    ensures |r| <= |ms|
    ensures forall i :: 0 <= i < |r| ==> r[i].correlationId >= 0
  {
    if ms == [] then []
    else KeepNonNegative(ms[..|ms| - 1]) + (if ms[|ms| - 1].correlationId >= 0 then [ms[|ms| - 1]] else [])
  }

  /** The messages `slidingWindows` returns once the counter has handed out `key`. */
  function SplitWindows<T>(payload: T, key: int): seq<Message<T>>
  {
    KeepNonNegative(Entries(payload, key, WINDOW_SIZE))
  }

  lemma {:induction false} EntriesAt<T>(payload: T, key: int, n: nat, i: nat)
    requires i < n
    ensures Entries(payload, key, n)[i] == Message(payload, key - i, i, WINDOW_SIZE)
  {
    if i < n - 1 {
      EntriesAt(payload, key, n - 1, i);
    }
  }

  /** Since the ids fall as the sequence number grows, the filter keeps a prefix of the stream. */
  lemma {:induction false} FilterKeepsPrefix<T>(payload: T, key: int, n: nat)
    requires key >= -1
    ensures KeepNonNegative(Entries(payload, key, n)) == Entries(payload, key, Min(n, key + 1))
  {
    if n > 0 {
      var ms := Entries(payload, key, n);
      assert ms[..n - 1] == Entries(payload, key, n - 1);
      FilterKeepsPrefix(payload, key, n - 1);
    }
  }

  /**
   * The payload with key `n` yields `min(3, n + 1)` messages; message `s`
   * carries the unchanged payload, correlation id `n - s >= 0`, sequence
   * number `s` and sequence size 3.
   */
  lemma SplitWindowsShape<T>(payload: T, key: nat)
    ensures |SplitWindows(payload, key)| == Min(WINDOW_SIZE, key + 1)
    ensures forall s :: 0 <= s < |SplitWindows(payload, key)| ==>
      SplitWindows(payload, key)[s] == Message(payload, key - s, s, WINDOW_SIZE) && key - s >= 0
  {
    FilterKeepsPrefix(payload, key, WINDOW_SIZE);
    var ms := SplitWindows(payload, key);
    forall s | 0 <= s < |ms|
      ensures ms[s] == Message(payload, key - s, s, WINDOW_SIZE)
    {
      EntriesAt(payload, key, Min(WINDOW_SIZE, key + 1), s);
    }
  }

  // ----- the aggregator --------------------------------------------------------

  /** The message store's content: the pending group of each correlation id. */
  type Groups<T> = map<int, seq<Message<T>>>

  function GroupOf<T>(groups: Groups<T>, id: int): seq<Message<T>>
  {
    if id in groups then groups[id] else []
  }

  /** The default output of the aggregator: the group's payloads, in arrival order. */
  function Payloads<T>(ms: seq<Message<T>>): (ps: seq<T>)
    ensures |ps| == |ms|
    ensures forall i :: 0 <= i < |ms| ==> ps[i] == ms[i].payload
  {
    if ms == [] then [] else Payloads(ms[..|ms| - 1]) + [ms[|ms| - 1].payload]
  }

  /** The sequence-size release strategy: the group holds as many messages as its sequence size. */
  predicate CanRelease<T>(group: seq<Message<T>>)
  {
    |group| > 0 && |group| == group[0].sequenceSize
  }

  /** The store after one message, and the windows released by it. */
  datatype Step<T> = Step(groups: Groups<T>, released: seq<seq<T>>)

  /**
   * One message reaching the aggregator: it joins the group of its correlation
   * id; a group that is then complete is released and, since groups expire upon
   * completion, removed from the store.
   */
  function Aggregate<T>(groups: Groups<T>, m: Message<T>): (s: Step<T>)
    ensures forall id :: id != m.correlationId ==> GroupOf(s.groups, id) == GroupOf(groups, id)
    ensures s.groups.Keys - {m.correlationId} == groups.Keys - {m.correlationId}
    ensures |s.released| <= 1
    ensures s.released != [] <==> m.correlationId !in s.groups
    ensures s.released != [] ==> s.released[0] == Payloads(GroupOf(groups, m.correlationId)) + [m.payload]
    ensures s.released == [] ==> GroupOf(s.groups, m.correlationId) == GroupOf(groups, m.correlationId) + [m]
  {
    var group := GroupOf(groups, m.correlationId) + [m];
    assert group[..|group| - 1] == GroupOf(groups, m.correlationId);
    if CanRelease(group) then Step(groups - {m.correlationId}, [Payloads(group)])
    else Step(groups[m.correlationId := group], [])
  }

  /** The aggregator handling `ms` in order. */
  function AggregateAll<T>(groups: Groups<T>, ms: seq<Message<T>>): Step<T>
  {
    if ms == [] then Step(groups, [])
    else
      var s := AggregateAll(groups, ms[..|ms| - 1]);
      var t := Aggregate(s.groups, ms[|ms| - 1]);
      Step(t.groups, s.released + t.released)
  }

  /** Every stored group is non-empty, shares one correlation id and still misses part of its sequence. */
  predicate Pending<T>(groups: Groups<T>)
  {
    forall id :: id in groups ==>
      0 < |groups[id]| < groups[id][0].sequenceSize &&
      forall j :: 0 <= j < |groups[id]| ==> groups[id][j].correlationId == id
  }

  /** The store never keeps a complete group: the message completing it releases and removes it. */
  lemma AggregateKeepsPending<T>(groups: Groups<T>, m: Message<T>)
    requires Pending(groups) && m.sequenceSize >= 1
    ensures Pending(Aggregate(groups, m).groups)
  {
    var id := m.correlationId;
    var group := GroupOf(groups, id) + [m];
    if !CanRelease(group) {
      var after := Aggregate(groups, m).groups;
      assert after == groups[id := group];
      assert 0 < |group| < group[0].sequenceSize;
      assert forall j :: 0 <= j < |group| ==> group[j].correlationId == id;
    }
  }

  // ----- closed form in terms of the inputs --------------------------------------

  /** The first correlation id whose group is still open after `n` inputs. */
  function FirstOpen(n: nat): nat
  {
    if n < WINDOW_SIZE - 1 then 0 else n - (WINDOW_SIZE - 1)
  }

  /** The pending group of id `id` after inputs `h`: the inputs from `id` on, numbered from 0. */
  function OpenGroup<T>(h: seq<T>, id: int): (g: seq<Message<T>>)
    requires 0 <= id <= |h|
    ensures |g| == |h| - id
  {
    seq(|h| - id, j requires 0 <= j < |h| - id => Message(h[id + j], id, j, WINDOW_SIZE))
  }

  /** The store after inputs `h`: one open group for each of the last two keys. */
  function OpenGroups<T>(h: seq<T>): Groups<T>
  {
    map id: int | FirstOpen(|h|) <= id < |h| :: OpenGroup(h, id)
  }

  /** The windows released after inputs `h`: window `k` is `h[k..k + 3]`. */
  function Released<T>(h: seq<T>): (ws: seq<seq<T>>)
    ensures |ws| == FirstOpen(|h|)
  {
    seq(FirstOpen(|h|), k requires 0 <= k < FirstOpen(|h|) => h[k..k + WINDOW_SIZE])
  }

  lemma OpenGroupGrows<T>(h: seq<T>, p: T, id: int)
    requires 0 <= id <= |h|
    ensures OpenGroup(h, id) + [Message(p, id, |h| - id, WINDOW_SIZE)] == OpenGroup(h + [p], id)
  {
  }

  /** Message `j` of the open group `id` is input `id + j`, numbered `j` within its group. */
  lemma OpenGroupAt<T>(h: seq<T>, id: int, j: nat)
    requires 0 <= id <= |h| && j < |h| - id
    ensures OpenGroup(h, id)[j] == Message(h[id + j], id, j, WINDOW_SIZE)
  {
  }

  /** Released window `k` is the three inputs from `k` on. */
  lemma ReleasedAt<T>(h: seq<T>, k: nat)
    requires k < |Released(h)|
    ensures |Released(h)[k]| == WINDOW_SIZE && Released(h)[k] == h[k..k + WINDOW_SIZE]
  {
  }

  lemma PayloadsOfOpenGroup<T>(h: seq<T>, id: int)
    requires 0 <= id <= |h|
    ensures Payloads(OpenGroup(h, id)) == h[id..]
  {
  }

  /** Message `i` of the new input joins the group `|h| - i`; the third one completes it. */
  lemma JoinWindow<T>(h: seq<T>, p: T, groups: Groups<T>, i: nat)
    requires i < WINDOW_SIZE && i <= |h|
    requires GroupOf(groups, |h| - i) == OpenGroup(h, |h| - i)
    ensures i < WINDOW_SIZE - 1 ==>
      Aggregate(groups, Message(p, |h| - i, i, WINDOW_SIZE)) ==
      Step(groups[|h| - i := OpenGroup(h + [p], |h| - i)], [])
    ensures i == WINDOW_SIZE - 1 ==>
      Aggregate(groups, Message(p, |h| - i, i, WINDOW_SIZE)) ==
      Step(groups - {|h| - i}, [(h + [p])[|h| - i..]])
  {
    var id := |h| - i;
    OpenGroupGrows(h, p, id);
    PayloadsOfOpenGroup(h + [p], id);
    var group := OpenGroup(h + [p], id);
    assert |group| == i + 1 && group[0].sequenceSize == WINDOW_SIZE;
  }

  lemma SplitFirst<T>(p: T)
    ensures SplitWindows(p, 0) == [Message(p, 0, 0, WINDOW_SIZE)]
  {
    SplitWindowsShape(p, 0);
  }

  lemma SplitSecond<T>(p: T)
    ensures SplitWindows(p, 1) == [Message(p, 1, 0, WINDOW_SIZE), Message(p, 0, 1, WINDOW_SIZE)]
  {
    SplitWindowsShape(p, 1);
  }

  lemma SplitLater<T>(p: T, n: nat)
    requires n >= 2
    ensures SplitWindows(p, n) ==
      [Message(p, n, 0, WINDOW_SIZE), Message(p, n - 1, 1, WINDOW_SIZE), Message(p, n - 2, 2, WINDOW_SIZE)]
  {
    SplitWindowsShape(p, n);
  }

  lemma AggregateTwo<T>(groups: Groups<T>, m0: Message<T>, m1: Message<T>)
    ensures AggregateAll(groups, [m0, m1]) ==
      var a := Aggregate(groups, m0);
      var b := Aggregate(a.groups, m1);
      Step(b.groups, a.released + b.released)
  {
    var a := Aggregate(groups, m0);
    assert [m0][..0] == [];
    assert AggregateAll(groups, [m0]) == Step(a.groups, [] + a.released);
    assert [] + a.released == a.released;
    assert [m0, m1][..1] == [m0];
  }

  lemma AggregateThree<T>(groups: Groups<T>, m0: Message<T>, m1: Message<T>, m2: Message<T>)
    ensures AggregateAll(groups, [m0, m1, m2]) ==
      var ab := AggregateAll(groups, [m0, m1]);
      var c := Aggregate(ab.groups, m2);
      Step(c.groups, ab.released + c.released)
  {
    var ms := [m0, m1, m2];
    assert ms[..2] == [m0, m1] && ms[2] == m2;
  }

  /** The first input opens group 0 and releases nothing. */
  lemma StepFirst<T>(p: T)
    ensures AggregateAll(OpenGroups<T>([]), SplitWindows(p, 0)) == Step(OpenGroups([p]), [])
  {
    SplitFirst(p);
    var g0 := OpenGroups<T>([]);
    JoinWindow([], p, g0, 0);
    assert [p] == [] + [p];
    assert [Message(p, 0, 0, WINDOW_SIZE)][..0] == [];
    assert g0[0 := OpenGroup([p], 0)] == OpenGroups([p]);
  }

  /** The second input joins group 0 and opens group 1; nothing is released. */
  lemma StepSecond<T>(h: seq<T>, p: T)
    requires |h| == 1
    ensures AggregateAll(OpenGroups(h), SplitWindows(p, 1)) == Step(OpenGroups(h + [p]), [])
  {
    SplitSecond(p);
    var g0 := OpenGroups(h);
    JoinWindow(h, p, g0, 0);
    var g1 := g0[1 := OpenGroup(h + [p], 1)];
    JoinWindow(h, p, g1, 1);
    var g2 := g1[0 := OpenGroup(h + [p], 0)];
    AggregateTwo(g0, Message(p, 1, 0, WINDOW_SIZE), Message(p, 0, 1, WINDOW_SIZE));
    SecondGroups(h, p);
  }

  /** The store after the two pieces of the second input: group 0 grown, group 1 opened. */
  lemma SecondGroups<T>(h: seq<T>, p: T)
    requires |h| == 1
    ensures OpenGroups(h)[1 := OpenGroup(h + [p], 1)][0 := OpenGroup(h + [p], 0)] == OpenGroups(h + [p])
  {
    var h' := h + [p];
    var g := OpenGroups(h)[1 := OpenGroup(h', 1)][0 := OpenGroup(h', 0)];
    assert forall id :: id in g <==> 0 <= id <= 1;
    assert g.Keys == OpenGroups(h').Keys;
  }

  /** The store after the three pieces of a later input: two groups grown, the oldest one gone. */
  lemma LaterGroups<T>(h: seq<T>, p: T)
    requires |h| >= 2
    ensures OpenGroups(h)[|h| := OpenGroup(h + [p], |h|)][|h| - 1 := OpenGroup(h + [p], |h| - 1)] - {|h| - 2}
      == OpenGroups(h + [p])
  {
    var n := |h|;
    var h' := h + [p];
    var g := OpenGroups(h)[n := OpenGroup(h', n)][n - 1 := OpenGroup(h', n - 1)] - {n - 2};
    assert forall id :: id in g <==> n - 1 <= id <= n;
    assert g.Keys == OpenGroups(h').Keys;
  }

  /** A later input completes the oldest open group, releasing the window that ends with it. */
  lemma StepLater<T>(h: seq<T>, p: T)
    requires |h| >= 2
    ensures AggregateAll(OpenGroups(h), SplitWindows(p, |h|)) ==
      Step(OpenGroups(h + [p]), [(h + [p])[|h| - 2..]])
  {
    var n := |h|;
    var h' := h + [p];
    var m0, m1, m2 := Message(p, n, 0, WINDOW_SIZE), Message(p, n - 1, 1, WINDOW_SIZE), Message(p, n - 2, 2, WINDOW_SIZE);
    SplitLater(p, n);
    var g0 := OpenGroups(h);
    JoinWindow(h, p, g0, 0);
    var g1 := g0[n := OpenGroup(h', n)];
    JoinWindow(h, p, g1, 1);
    var g2 := g1[n - 1 := OpenGroup(h', n - 1)];
    JoinWindow(h, p, g2, 2);
    AggregateTwo(g0, m0, m1);
    AggregateThree(g0, m0, m1, m2);
    LaterGroups(h, p);
  }

  lemma ReleasedGrows<T>(h: seq<T>, p: T)
    requires |h| >= 2
    ensures Released(h) + [(h + [p])[|h| - 2..]] == Released(h + [p])
  {
    var h' := h + [p];
    var n := |h|;
    assert |Released(h')| == |Released(h)| + 1;
    assert Released(h')[n - 2] == h'[n - 2..n + 1] == h'[n - 2..];
    forall k | 0 <= k < |Released(h)|
      ensures Released(h)[k] == Released(h')[k]
    {
      assert h'[k..k + WINDOW_SIZE] == h[k..k + WINDOW_SIZE];
    }
  }

  /**
   * Splitting and aggregating one more input moves the store from the open
   * groups of `h` to those of `h + [p]` and releases exactly the windows that
   * `h + [p]` has beyond those of `h`.
   */
  lemma SendStep<T>(h: seq<T>, p: T)
    ensures AggregateAll(OpenGroups(h), SplitWindows(p, |h|)).groups == OpenGroups(h + [p])
    ensures Released(h) + AggregateAll(OpenGroups(h), SplitWindows(p, |h|)).released == Released(h + [p])
  {
    if |h| == 0 {
      assert h == [];
      StepFirst(p);
      assert [] + [p] == [p];
    } else if |h| == 1 {
      StepSecond(h, p);
    } else {
      StepLater(h, p);
      ReleasedGrows(h, p);
    }
  }

  /** After inputs `h` the store holds `min(|h|, 2)` groups. */
  lemma GroupCount<T>(h: seq<T>)
    ensures |OpenGroups(h).Keys| == Min(|h|, WINDOW_SIZE - 1)
  {
    var n := |h|;
    assert forall id :: id in OpenGroups(h) <==> FirstOpen(n) <= id < n;
    if n == 0 {
      assert OpenGroups(h).Keys == {};
    } else if n == 1 {
      assert OpenGroups(h).Keys == {0};
    } else {
      assert OpenGroups(h).Keys == {n - 2, n - 1};
    }
  }

  /** The windows one more input `p` releases: the one ending with `p`, once there are three inputs. */
  function NewWindows<T>(h: seq<T>, p: T): (ws: seq<seq<T>>)
    ensures Released(h) + ws == Released(h + [p])
  {
    if |h| < WINDOW_SIZE - 1 then [] else (ReleasedGrows(h, p); [(h + [p])[|h| - 2..]])
  }

  /** What `Send` leaves behind, in terms of the inputs before and after it. */
  lemma SendCompletes<T>(h: seq<T>, p: T, g0: Groups<T>, delivered: seq<seq<T>>, q0: seq<seq<T>>, queue: seq<seq<T>>)
    requires g0 == OpenGroups(h) && delivered + q0 == Released(h)
    requires queue == q0 + AggregateAll(g0, SplitWindows(p, |h|)).released
    ensures AggregateAll(g0, SplitWindows(p, |h|)).groups == OpenGroups(h + [p])
    ensures delivered + queue == Released(h + [p])
    ensures queue == q0 + NewWindows(h, p)
  {
    SendStep(h, p);
    var released := AggregateAll(g0, SplitWindows(p, |h|)).released;
    CancelPrefix(Released(h), released, NewWindows(h, p));
    assert delivered + (q0 + released) == (delivered + q0) + released;
  }

  lemma CancelPrefix<T>(r: seq<T>, a: seq<T>, b: seq<T>)
    requires r + a == r + b
    ensures a == b
  {
    assert (r + a)[|r|..] == a;
    assert (r + b)[|r|..] == b;
  }

  // ----- the running flow --------------------------------------------------------

  /** `SimpleMessageStore`: the groups, keyed by correlation id. */
  class SimpleMessageStore<T> {
    var groups: Groups<T>

    constructor()
      ensures groups == map[]
    {
      groups := map[];
    }

    function GetMessageGroupCount(): (n: nat)
      reads this
      ensures n == |groups.Keys|
    {
      |groups|
    }

    function GetMessageGroup(id: int): seq<Message<T>>
      reads this
    {
      GroupOf(groups, id)
    }

    method AddMessageToGroup(id: int, m: Message<T>)
      modifies this
      ensures groups == old(groups)[id := old(GetMessageGroup(id)) + [m]]
    {
      groups := groups[id := GetMessageGroup(id) + [m]];
    }

    method RemoveMessageGroup(id: int)
      modifies this
      ensures groups == old(groups) - {id}
    {
      groups := groups - {id};
    }
  }

  /** The queue channel `framer.output`. */
  class QueueChannel<T> {
    var queue: seq<T>
    /** Everything taken out so far. */
    ghost var delivered: seq<T>

    constructor()
      ensures queue == [] && delivered == []
    {
      queue := [];
      delivered := [];
    }

    method Send(x: T)
      modifies this
      ensures queue == old(queue) + [x] && delivered == old(delivered)
    {
      queue := queue + [x];
    }

    /** `receive()`: the oldest queued element, or `null` when the queue is empty. */
    method Receive() returns (r: Option<T>)
      modifies this
      ensures old(queue) == [] ==> r == None && queue == [] && delivered == old(delivered)
      ensures old(queue) != [] ==> r == Some(old(queue)[0]) && queue == old(queue)[1..]
      ensures old(queue) != [] ==> delivered == old(delivered) + [old(queue)[0]]
      ensures delivered + queue == old(delivered) + old(queue)
    {
      if queue == [] {
        r := None;
      } else {
        r := Some(queue[0]);
        delivered := delivered + [queue[0]];
        queue := queue[1..];
      }
    }
  }

  /** The framer flow: the splitter with its counter, the aggregator and the output queue. */
  class Framer<T> {
    const messageGroupStore: SimpleMessageStore<T>
    const output: QueueChannel<seq<T>>
    /** The `AtomicLong` counter, taken as an ordinary field. */
    var messageSequence: nat
    /** The payloads sent to `framer.input` so far. */
    ghost var inputs: seq<T>

    ghost predicate Valid()
      reads this, messageGroupStore, output
    {
      messageSequence == |inputs| &&
      messageGroupStore.groups == OpenGroups(inputs) &&
      output.delivered + output.queue == Released(inputs)
    }

    constructor(messageGroupStore: SimpleMessageStore<T>)
      requires messageGroupStore.groups == map[]
      ensures this.messageGroupStore == messageGroupStore && fresh(output)
      ensures inputs == [] && Valid()
    {
      this.messageGroupStore := messageGroupStore;
      output := new QueueChannel();
      messageSequence := 0;
      inputs := [];
      new;
      assert OpenGroups<T>([]) == map[];
    }

    /** The splitter: takes the counter value as the correlation key and advances the counter by one. */
    method SlidingWindows(payload: T) returns (ms: seq<Message<T>>)
      modifies this`messageSequence
      ensures messageSequence == old(messageSequence) + 1
      ensures ms == SplitWindows(payload, old(messageSequence))
    {
      var correlationKey := messageSequence;
      messageSequence := messageSequence + 1;
      ms := SplitWindows(payload, correlationKey);
    }

    /** The aggregator receiving one message. */
    method HandleMessage(m: Message<T>)
      modifies messageGroupStore, output
      ensures messageGroupStore.groups == Aggregate(old(messageGroupStore.groups), m).groups
      ensures output.queue == old(output.queue) + Aggregate(old(messageGroupStore.groups), m).released
      ensures output.delivered == old(output.delivered)
    {
      messageGroupStore.AddMessageToGroup(m.correlationId, m);
      var group := messageGroupStore.GetMessageGroup(m.correlationId);
      if CanRelease(group) {
        output.Send(Payloads(group));
        messageGroupStore.RemoveMessageGroup(m.correlationId);
      }
    }

    /** The splitter's output fed to the aggregator piece by piece, in order. */
    method HandleMessages(ms: seq<Message<T>>)
      modifies messageGroupStore, output
      ensures messageGroupStore.groups == AggregateAll(old(messageGroupStore.groups), ms).groups
      ensures output.queue == old(output.queue) + AggregateAll(old(messageGroupStore.groups), ms).released
      ensures output.delivered == old(output.delivered)
    {
      ghost var g0 := messageGroupStore.groups;
      ghost var q0 := output.queue;
      ghost var d0 := output.delivered;
      for i := 0 to |ms|
        invariant messageGroupStore.groups == AggregateAll(g0, ms[..i]).groups
        invariant output.queue == q0 + AggregateAll(g0, ms[..i]).released
        invariant output.delivered == d0
      {
        assert ms[..i + 1][..i] == ms[..i];
        HandleMessage(ms[i]);
      }
      assert ms[..|ms|] == ms;
    }

    /** `framerInput.send(payload)`: split, then aggregate every piece in order. */
    method Send(payload: T)
      requires Valid()
      modifies this, messageGroupStore, output
      ensures Valid() && inputs == old(inputs) + [payload]
      ensures output.queue == old(output.queue) + NewWindows(old(inputs), payload)
    {
      ghost var h := inputs;
      ghost var g0 := messageGroupStore.groups;
      ghost var q0 := output.queue;
      ghost var d0 := output.delivered;
      var ms := SlidingWindows(payload);
      HandleMessages(ms);
      SendCompletes(h, payload, g0, d0, q0, output.queue);
      inputs := h + [payload];
    }
  }

  /**
   * Five prices through a fresh framer: three windows come out, each three
   * consecutive prices in arrival order, no fourth one follows, and two groups
   * stay in the store.
   */
  method FramerIsSlidingDataIntoWindows(prices: seq<int>)
    returns (windows: seq<seq<int>>, fourth: Option<seq<int>>, groupCount: nat)
    requires |prices| == 5
    ensures windows == [prices[0..3], prices[1..4], prices[2..5]]
    ensures fourth == None
    ensures groupCount == 2
  {
    var store := new SimpleMessageStore<int>();
    var framer := new Framer(store);
    for i := 0 to 5
      invariant framer.Valid() && framer.inputs == prices[..i]
      invariant framer.output.delivered == []
    {
      assert prices[..i + 1] == prices[..i] + [prices[i]];
      framer.Send(prices[i]);
    }
    assert prices[..5] == prices;
    windows := [];
    for k := 0 to 3
      invariant framer.Valid() && framer.inputs == prices
      invariant framer.output.delivered == windows && |windows| == k
    {
      var w := framer.output.Receive();
      windows := windows + [w.value];
    }
    assert windows == Released(prices);
    fourth := framer.output.Receive();
    GroupCount(prices);
    groupCount := store.GetMessageGroupCount();
  }
}
