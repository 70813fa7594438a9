/** The realtime store behind `useDashboardChannel`: a snapshot that every
    server message replaces wholesale, a connection flag driven by the
    socket and the channel join, and `push`, which turns the server's
    answer to a request into a settled promise.

    The socket itself is not modelled; what remains is the sequence of
    events it delivers. */
module DashboardChannel {
  import opened Wrappers
  import opened Types

  /** The hook's state: `data`, `isConnected`, and whether the channel
      object exists yet (it is created when the component mounts). */
  datatype Store = Store(data: SheetData, isConnected: bool, hasChannel: bool)

  /** Empty rows, no timestamp, disconnected, no channel. */
  const Initial := Store(EmptyData, false, false)

  datatype Event =
    | Mount                               // the effect has created the channel
    | JoinOk(reply: SheetData)            // join answered "ok"
    | JoinError                           // join answered "error"
    | NewData(payload: SheetData)         // a "new_data" broadcast
    | SocketOpen
    | SocketClose
    | SocketError
    | ManualUpdate(fn: SheetData -> SheetData)

  /** One event: only a mount creates the channel, and the connection
      flag follows what the event says about the connection, if anything. */
  function Step(s: Store, e: Event): (r: Store)
    ensures r.hasChannel <==> s.hasChannel || e.Mount?
    ensures Connectivity(e).Some? ==> r.isConnected == Connectivity(e).value
    ensures Connectivity(e).None? ==> r.isConnected == s.isConnected
  {
    match e
    case Mount => s.(hasChannel := true)
    case JoinOk(reply) => s.(data := reply, isConnected := true)
    case JoinError => s.(isConnected := false)
    case NewData(payload) => s.(data := payload)
    case SocketOpen => s.(isConnected := true)
    case SocketClose => s.(isConnected := false)
    case SocketError => s.(isConnected := false)
    case ManualUpdate(fn) => s.(data := fn(s.data))
  }

  /** The events delivered in order, oldest first. */
  function Run(s: Store, es: seq<Event>): (r: Store)
    ensures r.hasChannel <==> s.hasChannel || exists i :: 0 <= i < |es| && es[i].Mount?
    ensures (forall i :: 0 <= i < |es| ==> Connectivity(es[i]).None?) ==> r.isConnected == s.isConnected
    decreases |es|
  {
    if |es| == 0 then s else Run(Step(s, es[0]), es[1..])
  }

  lemma {:induction false} RunSnoc(s: Store, es: seq<Event>, e: Event)
    ensures Run(s, es + [e]) == Step(Run(s, es), e)
    decreases |es|
  {
    if |es| > 0 {
      assert (es + [e])[1..] == es[1..] + [e];
      RunSnoc(Step(s, es[0]), es[1..], e);
    }
  }

  /** What an event says about the connection, if anything. */
  function Connectivity(e: Event): Option<bool> {
    match e
    case JoinOk(_) => Some(true)
    case SocketOpen => Some(true)
    case JoinError => Some(false)
    case SocketClose => Some(false)
    case SocketError => Some(false)
    case _ => None
  }

  /** The connection flag as the newest event that speaks about it set it,
      or `initial` when none did. */
  function LastConnectivity(es: seq<Event>, initial: bool): bool {
    if |es| == 0 then initial
    else match Connectivity(es[|es| - 1])
      case Some(b) => b
      case None => LastConnectivity(es[..|es| - 1], initial)
  }

  /** The snapshot as the newest replacing event left it, with the manual
      updates since then applied in order; `initial` when nothing replaced it. */
  function LastData(es: seq<Event>, initial: SheetData): SheetData {
    if |es| == 0 then initial
    else match es[|es| - 1]
      case JoinOk(reply) => reply
      case NewData(payload) => payload
      case ManualUpdate(fn) => fn(LastData(es[..|es| - 1], initial))
      case _ => LastData(es[..|es| - 1], initial)
  }

  /** Running the store agrees with reading the history from its newest end. */
  lemma RunIsLast(s: Store, es: seq<Event>)
    ensures Run(s, es).isConnected == LastConnectivity(es, s.isConnected)
    ensures Run(s, es).data == LastData(es, s.data)
    ensures Run(s, es).hasChannel == (s.hasChannel || exists i :: 0 <= i < |es| && es[i].Mount?)
  {
    RunReadsNewest(s, es);
    RunKeepsChannel(s, es);
  }

  lemma {:induction false} RunReadsNewest(s: Store, es: seq<Event>)
    ensures Run(s, es).isConnected == LastConnectivity(es, s.isConnected)
    ensures Run(s, es).data == LastData(es, s.data)
  {
    if |es| > 0 {
      var init, e := es[..|es| - 1], es[|es| - 1];
      assert es == init + [e];
      RunReadsNewest(s, init);
      RunSnoc(s, init, e);
    }
  }

  lemma {:induction false} RunKeepsChannel(s: Store, es: seq<Event>)
    ensures Run(s, es).hasChannel == (s.hasChannel || exists i :: 0 <= i < |es| && es[i].Mount?)
  {
    if |es| > 0 {
      var init, e := es[..|es| - 1], es[|es| - 1];
      assert es == init + [e];
      RunKeepsChannel(s, init);
      RunSnoc(s, init, e);
      if exists i :: 0 <= i < |es| && es[i].Mount? {
        var i :| 0 <= i < |es| && es[i].Mount?;
        if i < |init| {
          assert init[i].Mount?;
        }
      }
      if exists i :: 0 <= i < |init| && init[i].Mount? {
        var i :| 0 <= i < |init| && init[i].Mount?;
        assert es[i].Mount?;
      }
    }
  }

  predicate Replaces(e: Event) {
    e.JoinOk? || e.NewData?
  }

  /** Once a join reply or a broadcast has arrived, the snapshot no longer
      depends on what the store held before: optimistic rows absent from
      the payload are gone. */
  lemma {:induction false} ReplacementForgets(es: seq<Event>, d1: SheetData, d2: SheetData, i: nat)
    requires i < |es| && Replaces(es[i])
    ensures LastData(es, d1) == LastData(es, d2)
  {
    if i < |es| - 1 {
      ReplacementForgets(es[..|es| - 1], d1, d2, i);
    }
  }

  /** A store that has received a replacing event holds the same snapshot
      whatever it started from. */
  lemma StoreForgets(s1: Store, s2: Store, es: seq<Event>, i: nat)
    requires i < |es| && Replaces(es[i])
    ensures Run(s1, es).data == Run(s2, es).data
  {
    RunIsLast(s1, es);
    RunIsLast(s2, es);
    ReplacementForgets(es, s1.data, s2.data, i);
  }

  /** Connection events never touch the snapshot; manual updates never
      touch the connection flag. */
  lemma SeparateConcerns(s: Store, e: Event)
    ensures Connectivity(e).Some? && !e.JoinOk? ==> Step(s, e).data == s.data
    ensures e.ManualUpdate? ==> Step(s, e).isConnected == s.isConnected && Step(s, e).data == e.fn(s.data)
  {
  }

  /** An optimistic prepend followed by a broadcast that lacks the row: the
      row is gone. */
  lemma OptimisticRowOverwritten(s: Store, row: SheetRow, payload: SheetData)
    requires row !in payload.rows
    ensures row !in Run(s, [ManualUpdate((d: SheetData) => d.(rows := [row] + d.rows)), NewData(payload)]).data.rows
  {
    var es := [ManualUpdate((d: SheetData) => d.(rows := [row] + d.rows)), NewData(payload)];
    RunIsLast(s, es);
  }

  // ---------------------------------------------------------------------
  // push

  /** The server's answer to a pushed message. */
  datatype Reply<T> = ReplyOk(value: T) | ReplyError(value: T) | ReplyTimeout

  /** Why a promise was rejected: one of the hook's own messages, or the
      server's error payload. */
  datatype Reason<T> = Message(text: string) | Payload(value: T)

  datatype Outcome<T> = Resolved(value: T) | Rejected(reason: Reason<T>)

  /** `push(event, payload)`: the promise settles from the reply; without
      a channel it rejects at once. The connection flag is not consulted. */
  function Push<T>(hasChannel: bool, reply: Reply<T>): (r: Outcome<T>)
    ensures r.Resolved? <==> hasChannel && reply.ReplyOk?
    ensures r.Resolved? ==> r.value == reply.value
    ensures !hasChannel ==> r == Rejected(Message("Not connected"))
    ensures hasChannel && reply.ReplyError? ==> r == Rejected(Payload(reply.value))
    ensures hasChannel && reply.ReplyTimeout? ==> r == Rejected(Message("Timeout"))
  {
    if !hasChannel then Rejected(Message("Not connected"))
    else match reply
      case ReplyOk(v) => Resolved(v)
      case ReplyError(v) => Rejected(Payload(v))
      case ReplyTimeout => Rejected(Message("Timeout"))
  }
}
