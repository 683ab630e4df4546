/**
 The worker's log batcher: lines arrive over a channel, a ticker forces flushes, and
 one buffer is reused for every batch. A batch is posted once; if that fails, its
 lines are gone.
 */
module LogShipping {

  const BATCH_SIZE: nat := 100

  // What happens to the main loop next. When the context ends, nothing posted from then
  // on goes through, but it may take the loop a while to notice.
  datatype Event = Line(text: string) | FlushTick | ContextEnds | Noticed

  // One POST: whether the controller stored its chunk, and how many events the loop had
  // seen when it was made.
  datatype Batch = Batch(lines: seq<string>, stored: bool, at: nat)

  function StripNul(s: string): (r: string)
    ensures '\0' !in r && ('\0' !in s ==> r == s) && forall c | c in r :: c in s
    ensures forall c | c != '\0' :: multiset(r)[c] == multiset(s)[c]
  {
    if s == "" then ""
    else
      assert s == [s[0]] + s[1..];
      if s[0] == '\0' then StripNul(s[1..]) else [s[0]] + StripNul(s[1..])
  }

  // Nothing but NUL characters goes, and what stays keeps its order.
  lemma {:induction false} StripNulParts(s: string, t: string)
    ensures StripNul(s + t) == StripNul(s) + StripNul(t)
  {
    if s == "" {
      assert s + t == t;
    } else {
      assert (s + t)[0] == s[0] && (s + t)[1..] == s[1..] + t;
      StripNulParts(s[1..], t);
    }
  }

  // The lines received before the stream ended or the end of the context was noticed.
  function Received(events: seq<Event>): seq<string> {
    if events == [] then []
    else
      match events[0]
      case Line(text) => [StripNul(text)] + Received(events[1..])
      case FlushTick => Received(events[1..])
      case ContextEnds => Received(events[1..])
      case Noticed => []
  }

  lemma {:induction false} ReceivedMore(front: seq<Event>, ev: Event)
    requires forall k | 0 <= k < |front| :: !front[k].Noticed?
    ensures Received(front + [ev]) == Received(front) + if ev.Line? then [StripNul(ev.text)] else []
  {
    if front == [] {
      assert front + [ev] == [ev];
    } else {
      assert (front + [ev])[0] == front[0] && (front + [ev])[1..] == front[1..] + [ev];
      ReceivedMore(front[1..], ev);
    }
  }

  // Nothing is received from the moment the loop notices.
  lemma {:induction false} ReceivedStops(events: seq<Event>, i: nat)
    requires i <= |events| && (i < |events| ==> events[i].Noticed?) && forall k | 0 <= k < i :: !events[k].Noticed?
    ensures Received(events) == Received(events[..i])
  {
    if i > 0 {
      assert events[..i][1..] == events[1..][..i - 1];
      ReceivedStops(events[1..], i - 1);
    }
  }

  // When the context ends: the number of events before that.
  function EndsAt(events: seq<Event>): (n: nat)
    ensures n <= |events|
    ensures forall i | 0 <= i < n :: !events[i].ContextEnds? && !events[i].Noticed?
    ensures n < |events| ==> events[n].ContextEnds? || events[n].Noticed?
  {
    if events == [] || events[0].ContextEnds? || events[0].Noticed? then 0 else 1 + EndsAt(events[1..])
  }

  // How many batches have been posted, and how many lines are waiting in the buffer.
  datatype Counts = Counts(posts: nat, waiting: nat)

  function Counted(c: Counts, ev: Event): Counts {
    match ev
    case Line(_) => if c.waiting + 1 >= BATCH_SIZE then Counts(c.posts + 1, 0) else c.(waiting := c.waiting + 1)
    case FlushTick => if c.waiting > 0 then Counts(c.posts + 1, 0) else c
    case _ => c
  }

  function CountsAfter(events: seq<Event>): Counts {
    if events == [] then Counts(0, 0)
    else Counted(CountsAfter(events[..|events| - 1]), events[|events| - 1])
  }

  predicate OneLine(s: string) {
    '\n' !in s
  }

  function Join(lines: seq<string>): string {
    if lines == [] then ""
    else if |lines| == 1 then lines[0]
    else lines[0] + "\n" + Join(lines[1..])
  }

  function Split(s: string): (r: seq<string>)
    ensures |r| >= 1
  {
    if s == "" then [""]
    else
      var rest := Split(s[1..]);
      if s[0] == '\n' then [""] + rest else [[s[0]] + rest[0]] + rest[1..]
  }

  function SplitAll(sent: seq<string>): seq<string> {
    if sent == [] then [] else SplitAll(sent[..|sent| - 1]) + Split(sent[|sent| - 1])
  }

  lemma {:induction false} SplitOneLine(s: string)
    requires OneLine(s)
    ensures Split(s) == [s]
  {
    if s != "" {
      SplitOneLine(s[1..]);
      assert [s[0]] + s[1..] == s;
    }
  }

  lemma {:induction false} SplitFirst(line: string, rest: string)
    requires OneLine(line)
    ensures Split(line + "\n" + rest) == [line] + Split(rest)
  {
    var s := line + "\n" + rest;
    if line == "" {
      assert s[1..] == rest;
    } else {
      assert s[1..] == line[1..] + "\n" + rest;
      SplitFirst(line[1..], rest);
      assert [line[0]] + line[1..] == line;
    }
  }

  // Splitting a batch gives back its lines.
  lemma {:induction false} SplitJoin(lines: seq<string>)
    requires lines != [] && forall l | l in lines :: OneLine(l)
    ensures Split(Join(lines)) == lines
  {
    if |lines| == 1 {
      SplitOneLine(lines[0]);
    } else {
      SplitJoin(lines[1..]);
      SplitFirst(lines[0], Join(lines[1..]));
    }
  }

  lemma SplitAllAppend(chunks: seq<string>, content: string)
    ensures SplitAll(chunks + [content]) == SplitAll(chunks) + Split(content)
  {
    assert (chunks + [content])[..|chunks|] == chunks;
  }

  lemma {:induction false} ReceivedLines(events: seq<Event>)
    requires forall ev | ev in events && ev.Line? :: OneLine(ev.text)
    ensures forall l | l in Received(events) :: OneLine(l) && '\0' !in l
  {
    if events != [] {
      ReceivedLines(events[1..]);
    }
  }

  // ---------------------------------------------------------------------
  // Posts and what is left of them
  // ---------------------------------------------------------------------

  // All lines posted.
  function Posted(posts: seq<Batch>): seq<string> {
    if posts == [] then [] else Posted(posts[..|posts| - 1]) + posts[|posts| - 1].lines
  }

  // The lines of the batches that were stored.
  function Kept(posts: seq<Batch>): seq<string> {
    if posts == [] then []
    else
      var last := posts[|posts| - 1];
      Kept(posts[..|posts| - 1]) + if last.stored then last.lines else []
  }

  // The chunks the controller has stored.
  function Chunks(posts: seq<Batch>): seq<string> {
    if posts == [] then []
    else
      var last := posts[|posts| - 1];
      Chunks(posts[..|posts| - 1]) + if last.stored then [Join(last.lines)] else []
  }

  predicate Whole(b: Batch) {
    1 <= |b.lines| <= BATCH_SIZE && forall l | l in b.lines :: OneLine(l)
  }

  predicate AllWhole(posts: seq<Batch>) {
    forall b | b in posts :: Whole(b)
  }

  predicate AllStored(posts: seq<Batch>) {
    forall b | b in posts :: b.stored
  }

  // The stored chunks split back into exactly the lines of the stored batches, in order.
  lemma {:induction false} ChunksSplit(posts: seq<Batch>)
    requires AllWhole(posts)
    ensures SplitAll(Chunks(posts)) == Kept(posts)
  {
    if posts != [] {
      var front, last := posts[..|posts| - 1], posts[|posts| - 1];
      assert posts == front + [last] && Whole(last);
      ChunksSplit(front);
      if last.stored {
        SplitJoin(last.lines);
        SplitAllAppend(Chunks(front), Join(last.lines));
      } else {
        assert Chunks(posts) == Chunks(front) && Kept(posts) == Kept(front);
      }
    }
  }

  // Every batch that is not stored costs lines.
  lemma {:induction false} KeptExactly(posts: seq<Batch>)
    requires AllWhole(posts)
    ensures |Kept(posts)| <= |Posted(posts)|
    ensures if AllStored(posts) then Kept(posts) == Posted(posts) else |Kept(posts)| < |Posted(posts)|
  {
    if posts != [] {
      var front, last := posts[..|posts| - 1], posts[|posts| - 1];
      assert posts == front + [last];
      KeptExactly(front);
    }
  }

  // New posts come after the old ones, and are stored if the answer is good and the
  // context still alive.
  ghost predicate Extends(before: seq<Batch>, after: seq<Batch>, answers: nat -> bool, cancelled: bool) {
    && before <= after
    && forall k | |before| <= k < |after| :: after[k].stored == (answers(k) && !cancelled)
  }

  // The new posts are made after `seen` events; a short one only if `short` allows it.
  ghost predicate Dated(before: seq<Batch>, after: seq<Batch>, seen: nat, short: bool) {
    && before <= after
    && forall k | |before| <= k < |after| :: after[k].at == seen && (short || |after[k].lines| == 100)
  }

  // All lines received before event `j` have been posted by the time it has been handled.
  ghost predicate PostedBy(events: seq<Event>, posts: seq<Batch>, j: nat)
    requires j < |events|
  {
    exists k :: 0 <= k <= |posts| && Posted(posts[..k]) == Received(events[..j])
             && forall q | 0 <= q < k :: posts[q].at <= j + 1
  }

  // When and why each post was made, and how it fared: a tick empties the buffer, and nothing
  // but a tick, the end of the stream or the end of the context posts fewer than 100 lines.
  ghost predicate Timely(events: seq<Event>, posts: seq<Batch>, answers: nat -> bool) {
    && (forall k | 0 <= k < |posts| :: posts[k].stored <==> answers(k) && posts[k].at <= EndsAt(events))
    && (forall k | 0 <= k < |posts| && |posts[k].lines| < 100 ::
          posts[k].at == |events|
          || (1 <= posts[k].at <= |events| && (events[posts[k].at - 1].FlushTick? || events[posts[k].at - 1].Noticed?)))
    && (forall j | 0 <= j < |events| && events[j].FlushTick? && (forall q | 0 <= q < j :: !events[q].Noticed?) ::
          PostedBy(events, posts, j))
  }

  // The k-th post, made in the first `i` events.
  ghost predicate OnTime(events: seq<Event>, i: nat, b: Batch, good: bool)
    requires i <= |events|
  {
    && 1 <= b.at <= i && (b.stored <==> good && b.at <= EndsAt(events))
    && (|b.lines| < 100 ==> events[b.at - 1].FlushTick?)
  }

  ghost predicate AllOnTime(events: seq<Event>, i: nat, posts: seq<Batch>, answers: nat -> bool)
    requires i <= |events|
  {
    forall k | 0 <= k < |posts| :: OnTime(events, i, posts[k], answers(k))
  }

  ghost predicate TicksPosted(events: seq<Event>, i: nat, posts: seq<Batch>)
    requires i <= |events|
  {
    forall j | 0 <= j < i && events[j].FlushTick? :: PostedBy(events, posts, j)
  }

  // The same after the first `i` events, with the lines taken so far.
  ghost predicate TimelySoFar(events: seq<Event>, i: nat, posts: seq<Batch>, taken: seq<string>, answers: nat -> bool,
                              cancelled: bool)
  {
    && i <= |events| && (forall q | 0 <= q < i :: !events[q].Noticed?)
    && taken == Received(events[..i]) && (cancelled <==> i > EndsAt(events))
    && AllOnTime(events, i, posts, answers) && TicksPosted(events, i, posts)
  }

  lemma PostedByMore(events: seq<Event>, posts: seq<Batch>, posts': seq<Batch>, j: nat)
    requires j < |events| && posts <= posts' && PostedBy(events, posts, j)
    ensures PostedBy(events, posts', j)
  {
    var k :| 0 <= k <= |posts| && Posted(posts[..k]) == Received(events[..j])
             && forall q | 0 <= q < k :: posts[q].at <= j + 1;
    assert posts'[..k] == posts[..k];
  }

  lemma OnTimeStep(events: seq<Event>, i: nat, posts: seq<Batch>, answers: nat -> bool, cancelled: bool,
                   posts': seq<Batch>)
    requires i < |events| && AllOnTime(events, i, posts, answers) && (cancelled <==> i > EndsAt(events))
    requires Extends(posts, posts', answers, cancelled) && Dated(posts, posts', i + 1, events[i].FlushTick?)
    requires events[i].ContextEnds? ==> posts' == posts
    requires !events[i].Noticed?
    ensures AllOnTime(events, i + 1, posts', answers)
  {
    forall k | 0 <= k < |posts'| ensures OnTime(events, i + 1, posts'[k], answers(k)) {
      if k < |posts| {
        assert posts'[k] == posts[k] && OnTime(events, i, posts[k], answers(k));
      }
    }
  }

  lemma TicksStep(events: seq<Event>, i: nat, posts: seq<Batch>, posts': seq<Batch>)
    requires i < |events| && TicksPosted(events, i, posts) && posts <= posts'
    requires events[i].FlushTick? ==>
               Posted(posts') == Received(events[..i]) && forall k | 0 <= k < |posts'| :: posts'[k].at <= i + 1
    ensures TicksPosted(events, i + 1, posts')
  {
    forall j | 0 <= j < i + 1 && events[j].FlushTick? ensures PostedBy(events, posts', j) {
      if j < i {
        PostedByMore(events, posts, posts', j);
      } else {
        assert posts'[..|posts'|] == posts';
        assert Posted(posts'[..|posts'|]) == Received(events[..j]);
      }
    }
  }

  lemma TimelyStep(events: seq<Event>, i: nat, posts: seq<Batch>, taken: seq<string>, answers: nat -> bool,
                   cancelled: bool, posts': seq<Batch>, taken': seq<string>)
    requires TimelySoFar(events, i, posts, taken, answers, cancelled) && i < |events| && !events[i].Noticed?
    requires taken' == taken + if events[i].Line? then [StripNul(events[i].text)] else []
    requires Extends(posts, posts', answers, cancelled) && Dated(posts, posts', i + 1, events[i].FlushTick?)
    requires events[i].ContextEnds? ==> posts' == posts
    requires events[i].FlushTick? ==> Posted(posts') == taken'
    ensures TimelySoFar(events, i + 1, posts', taken', answers, cancelled || events[i].ContextEnds?)
  {
    assert events[..i + 1] == events[..i] + [events[i]];
    ReceivedMore(events[..i], events[i]);
    OnTimeStep(events, i, posts, answers, cancelled, posts');
    assert forall k | 0 <= k < |posts'| :: OnTime(events, i + 1, posts'[k], answers(k));
    TicksStep(events, i, posts, posts');
  }

  lemma PostsTimely(events: seq<Event>, i: nat, posts: seq<Batch>, answers: nat -> bool, posts': seq<Batch>,
                    cancelled: bool)
    requires i <= |events| && AllOnTime(events, i, posts, answers) && (i < |events| ==> events[i].Noticed?)
    requires cancelled <==> i < |events| || |events| > EndsAt(events)
    requires Extends(posts, posts', answers, cancelled)
    requires Dated(posts, posts', if i < |events| then i + 1 else i, true)
    requires i < |events| ==> EndsAt(events) <= i
    ensures forall k | 0 <= k < |posts'| :: posts'[k].stored <==> answers(k) && posts'[k].at <= EndsAt(events)
    ensures forall k | 0 <= k < |posts'| && |posts'[k].lines| < 100 ::
              posts'[k].at == |events|
              || (1 <= posts'[k].at <= |events|
                  && (events[posts'[k].at - 1].FlushTick? || events[posts'[k].at - 1].Noticed?))
  {
    forall k | 0 <= k < |posts'|
      ensures posts'[k].stored <==> answers(k) && posts'[k].at <= EndsAt(events)
      ensures |posts'[k].lines| < 100 ==>
                posts'[k].at == |events|
                || (1 <= posts'[k].at <= |events|
                    && (events[posts'[k].at - 1].FlushTick? || events[posts'[k].at - 1].Noticed?))
    {
      if k < |posts| {
        assert posts'[k] == posts[k] && OnTime(events, i, posts[k], answers(k));
      }
    }
  }

  lemma TimelyEnd(events: seq<Event>, i: nat, posts: seq<Batch>, taken: seq<string>, answers: nat -> bool,
                  cancelled: bool, posts': seq<Batch>, cancelled': bool)
    requires TimelySoFar(events, i, posts, taken, answers, cancelled) && Posted(posts') == taken
    requires if i < |events| then events[i].Noticed? && cancelled' else cancelled' == cancelled
    requires Extends(posts, posts', answers, cancelled')
    requires Dated(posts, posts', if i < |events| then i + 1 else i, true)
    ensures Posted(posts') == Received(events) && Timely(events, posts', answers)
  {
    ReceivedStops(events, i);
    PostsTimely(events, i, posts, answers, posts', cancelled');
    forall j | 0 <= j < |events| && events[j].FlushTick? && (forall q | 0 <= q < j :: !events[q].Noticed?)
      ensures PostedBy(events, posts', j)
    {
      PostedByMore(events, posts, posts', j);
    }
  }

  // Where the loop stands after the first `i` events.
  ghost predicate Progress(events: seq<Event>, i: nat, cancelled: bool, waiting: nat, posts: seq<Batch>,
                           answers: nat -> bool)
    requires i <= |events|
  {
    var end := EndsAt(events);
    var alive := CountsAfter(events[..end]);
    if i <= end then
      && !cancelled && Counts(|posts|, waiting) == CountsAfter(events[..i])
      && forall k | 0 <= k < |posts| :: posts[k].stored <==> answers(k)
    else
      && cancelled && |posts| >= alive.posts
      && (alive.waiting > 0 ==> waiting > 0 || |posts| > alive.posts)
      && forall k | 0 <= k < |posts| :: posts[k].stored <==> answers(k) && k < alive.posts
  }

  lemma ProgressKept(events: seq<Event>, i: nat, cancelled: bool, waiting: nat, posts: seq<Batch>, answers: nat -> bool,
                     waiting': nat, posts': seq<Batch>)
    requires i < |events| && !events[i].Noticed? && Progress(events, i, cancelled, waiting, posts, answers)
    requires Counts(|posts'|, waiting') == Counted(Counts(|posts|, waiting), events[i])
    requires Extends(posts, posts', answers, cancelled)
    ensures Progress(events, i + 1, cancelled || events[i].ContextEnds?, waiting', posts', answers)
  {
    assert events[..i + 1][..i] == events[..i];
  }

  // What becomes of the posts: only those made before the context ended can be stored, and
  // lines still waiting then are posted in vain.
  ghost predicate PostsFare(events: seq<Event>, posts: seq<Batch>, answers: nat -> bool) {
    var alive := CountsAfter(events[..EndsAt(events)]);
    if EndsAt(events) == |events| then forall k | 0 <= k < |posts| :: posts[k].stored <==> answers(k)
    else
      && (forall k | 0 <= k < |posts| :: posts[k].stored <==> answers(k) && k < alive.posts)
      && |posts| >= alive.posts && (alive.waiting > 0 ==> |posts| > alive.posts)
  }

  lemma StoredExactly(events: seq<Event>, posts: seq<Batch>, answers: nat -> bool)
    requires PostsFare(events, posts, answers)
    ensures var alive := CountsAfter(events[..EndsAt(events)]);
            && (AllStored(posts) <==>
                  && (forall k | 0 <= k < |posts| :: answers(k))
                  && (EndsAt(events) < |events| ==> |posts| == alive.posts))
            && (EndsAt(events) < |events| && alive.waiting > 0 ==> !AllStored(posts))
  {
    assert AllStored(posts) <==> forall k | 0 <= k < |posts| :: posts[k].stored;
    if EndsAt(events) < |events| && |posts| > CountsAfter(events[..EndsAt(events)]).posts {
      assert !posts[|posts| - 1].stored;
    }
  }

  // The loop leaves when it notices, or at the end of the stream; the last flush follows.
  lemma ProgressDone(events: seq<Event>, i: nat, cancelled: bool, waiting: nat, posts: seq<Batch>, answers: nat -> bool,
                     cancelled': bool, posts': seq<Batch>)
    requires i <= |events| && Progress(events, i, cancelled, waiting, posts, answers)
    requires if i < |events| then events[i].Noticed? && cancelled' else cancelled' == cancelled
    requires Extends(posts, posts', answers, cancelled') && |posts'| == |posts| + if waiting > 0 then 1 else 0
    ensures PostsFare(events, posts', answers)
  {
  }

  class Shipper {
    // The one buffer, and how much of it is in use.
    const buffer: array<string>
    var used: nat
    // Whether the context has ended, and how the k-th POST fares if it has not.
    var cancelled: bool
    const answers: nat -> bool
    // Every POST made, and the chunks the controller has stored, in order.
    var posts: seq<Batch>
    var stored: seq<string>
    // How many events the loop has seen.
    var seen: nat

    ghost predicate Shipping()
      reads this, buffer
    {
      && buffer.Length == BATCH_SIZE && used <= BATCH_SIZE
      && (forall i | 0 <= i < used :: OneLine(buffer[i]))
      && AllWhole(posts) && stored == Chunks(posts)
    }

    // Between events the buffer is not full.
    ghost predicate Valid()
      reads this, buffer
    {
      Shipping() && used < BATCH_SIZE
    }

    // Every line taken in so far: those posted, then those still in the buffer.
    ghost function Taken(): seq<string>
      requires Shipping()
      reads this, buffer
    {
      Posted(posts) + buffer[..used]
    }

    constructor (answers: nat -> bool)
      ensures Valid() && fresh(buffer) && this.answers == answers
      ensures used == 0 && posts == [] && stored == [] && !cancelled && seen == 0
    {
      this.answers := answers;
      buffer := new string[BATCH_SIZE](i => "");
      used, cancelled, posts, stored, seen := 0, false, [], [], 0;
    }

    // Posts the buffer. Whether or not that goes well, the lines are dropped from it.
    method Flush()
      requires Shipping()
      modifies this`used, this`posts, this`stored
      ensures Valid() && used == 0
      ensures Taken() == old(Taken())
      ensures |posts| == old(|posts|) + if old(used) > 0 then 1 else 0
      ensures Extends(old(posts), posts, answers, cancelled) && Dated(old(posts), posts, seen, old(used) < 100)
    {
      if used == 0 {
        return;
      }
      var batch := Batch(buffer[..used], answers(|posts|) && !cancelled, seen);
      if batch.stored {
        stored := stored + [Join(batch.lines)];
      }
      assert (posts + [batch])[..|posts|] == posts;
      posts := posts + [batch];
      used := 0;
    }

    method Take(line: string)
      requires Valid() && OneLine(line)
      modifies this`used, this`posts, this`stored, buffer
      ensures Valid() && Taken() == old(Taken()) + [line]
      ensures Counts(|posts|, used) == Counted(old(Counts(|posts|, used)), Line(line))
      ensures Extends(old(posts), posts, answers, cancelled) && Dated(old(posts), posts, seen, false)
    {
      buffer[used] := line;
      ghost var lines := buffer[..used];
      used := used + 1;
      assert buffer[..used] == lines + [line];
      if used >= BATCH_SIZE {
        Flush();
      }
    }

    // A line, a tick of the flush timer, or the end of the context, which the loop does
    // not see by itself.
    method Handle(ev: Event)
      requires Valid() && !ev.Noticed? && (ev.Line? ==> OneLine(ev.text))
      modifies this, buffer
      ensures Valid() && Taken() == old(Taken()) + if ev.Line? then [StripNul(ev.text)] else []
      ensures Counts(|posts|, used) == Counted(old(Counts(|posts|, used)), ev)
      ensures Extends(old(posts), posts, answers, old(cancelled)) && Dated(old(posts), posts, seen, ev.FlushTick?)
      ensures ev.ContextEnds? ==> posts == old(posts)
      ensures ev.FlushTick? ==> used == 0
      ensures cancelled == (old(cancelled) || ev.ContextEnds?) && seen == old(seen) + 1
    {
      seen := seen + 1;
      match ev {
        case Line(text) => Take(StripNul(text));
        case FlushTick => Flush();
        case ContextEnds => cancelled := true;
      }
    }

    // Where the loop stands after `i` events.
    ghost predicate Standing(events: seq<Event>, i: nat)
      reads this, buffer
    {
      && Valid() && seen == i && i <= |events|
      && Progress(events, i, cancelled, used, posts, answers)
      && TimelySoFar(events, i, posts, Taken(), answers, cancelled)
    }

    // Leaves the loop after `i` events: a last flush, on whatever context there is.
    method Leave(events: seq<Event>, i: nat)
      requires Standing(events, i) && (i < |events| ==> events[i].Noticed?)
      modifies this
      ensures Valid() && used == 0 && Posted(posts) == Received(events)
      ensures PostsFare(events, posts, answers) && Timely(events, posts, answers)
    {
      ghost var waiting, before, was, taken := used, posts, cancelled, Taken();
      if i < |events| {
        cancelled := true;
        seen := seen + 1;
      }
      Flush();
      assert Taken() == Posted(posts);
      ProgressDone(events, i, was, waiting, before, answers, cancelled, posts);
      TimelyEnd(events, i, before, taken, answers, was, posts, cancelled);
    }

    // One turn of the loop.
    method Advance(events: seq<Event>, i: nat)
      requires Standing(events, i) && i < |events| && !events[i].Noticed?
      requires events[i].Line? ==> OneLine(events[i].text)
      modifies this, buffer
      ensures Standing(events, i + 1)
    {
      ghost var waiting, before, was, taken := used, posts, cancelled, Taken();
      Handle(events[i]);
      ProgressKept(events, i, was, waiting, before, answers, used, posts);
      assert used == 0 ==> Taken() == Posted(posts);
      TimelyStep(events, i, before, taken, answers, was, posts, Taken());
    }

    method Loop(events: seq<Event>) returns (i: nat)
      requires Standing(events, 0) && forall ev | ev in events && ev.Line? :: OneLine(ev.text)
      modifies this, buffer
      ensures Standing(events, i) && (i < |events| ==> events[i].Noticed?)
    {
      i := 0;
      while i < |events| && !events[i].Noticed?
        invariant i <= |events| && Standing(events, i)
      {
        Advance(events, i);
        i := i + 1;
      }
    }

    // The main loop, to the end of the stream or until it notices the end of the context.
    // Every line received is posted; what is posted after the context has ended is lost.
    method Stream(events: seq<Event>)
      requires Valid() && used == 0 && posts == [] && !cancelled && seen == 0
      requires forall ev | ev in events && ev.Line? :: OneLine(ev.text)
      modifies this, buffer
      ensures Valid() && used == 0
      ensures Posted(posts) == Received(events)
      ensures PostsFare(events, posts, answers) && Timely(events, posts, answers)
    {
      var i := Loop(events);
      Leave(events, i);
    }
  }

  // One job's logs, from raw lines to stored chunks. Every line received is posted exactly
  // once, NUL-free and in order, in batches of 1 to 100; the stored chunks split back into
  // the lines of the stored batches; that is all of them exactly when every POST went
  // through and none was left for after the end of the context. `Timely` says when each
  // post is made.
  method StreamLogs(events: seq<Event>, answers: nat -> bool) returns (stored: seq<string>, posts: seq<Batch>)
    requires forall ev | ev in events && ev.Line? :: OneLine(ev.text)
    ensures Posted(posts) == Received(events) && AllWhole(posts)
    ensures stored == Chunks(posts) && SplitAll(stored) == Kept(posts)
    ensures SplitAll(stored) == Received(events) <==> AllStored(posts)
    ensures var alive := CountsAfter(events[..EndsAt(events)]);
            && (AllStored(posts) <==>
                  && (forall k | 0 <= k < |posts| :: answers(k))
                  && (EndsAt(events) < |events| ==> |posts| == alive.posts))
            && (EndsAt(events) < |events| && alive.waiting > 0 ==> !AllStored(posts))
    ensures Timely(events, posts, answers)
    ensures forall l | l in Received(events) :: '\0' !in l && OneLine(l)
  {
    var shipper := new Shipper(answers);
    shipper.Stream(events);
    stored, posts := shipper.stored, shipper.posts;
    ChunksSplit(posts);
    KeptExactly(posts);
    ReceivedLines(events);
    StoredExactly(events, posts, answers);
  }
}
