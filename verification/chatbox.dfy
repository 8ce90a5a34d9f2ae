/** The session rules of `@core/scriptus/chatbox.js`: tenant/domain
    normalisation, the session reset when a conversation is stale or re-routed,
    and which script handler an incoming message is dispatched to. The script
    VM, the snippet library and the context store are outside the model; what
    the store returned and what the script defines are parameters. */
module ChatBox {
  import opened Js
  import opened Base

  /** Idle time after which a session starts over: 30 minutes, in ms. */
  const SessionTimeout := 1800000

  /** The parts of the adapter's context the rules read. `routingId` is
      `context.routing_id`; null and undefined are both `None`, as the loose
      `!=` the code uses does not tell them apart. */
  datatype Context = Context(tnt: Value, domain: Value, routingId: Option<string>)

  /** `context.domain = context.tnt || context.domain; context.tnt = context.domain`. */
  function NormaliseDomain(c: Context): (r: Context)
    ensures r.tnt == r.domain
    ensures Truthy(c.tnt) ==> r.domain == c.tnt
    ensures !Truthy(c.tnt) ==> r.domain == c.domain
    ensures r.routingId == c.routingId
  {
    var domain := Or(c.tnt, c.domain);
    c.(domain := domain, tnt := domain)
  }

  /** Normalising twice changes nothing more. */
  lemma NormaliseIdempotent(c: Context)
    ensures NormaliseDomain(NormaliseDomain(c)) == NormaliseDomain(c)
  {
  }

  /** A conversation session: pending promises, the handler stack, and the
      routing id it was opened under. Missing lists are empty lists. */
  datatype Session = Session(promise: seq<Value>, handler: seq<Value>, routingId: Option<string>)

  /** The session a reset, or a contact with no session, starts from. */
  const FreshSession := Session([], [], None)

  /** The stored `session_timeStamp`: missing (undefined), null, or a time in ms. */
  datatype TimeStamp = Unset | Nulled | At(ms: int)

  /** The stored contact: when its session was last touched, its session, and
      its user data. */
  datatype Contact = Contact(sessionTimeStamp: TimeStamp, session: Option<Session>, userData: map<string, Value>)

  /** `Date.now() - contact.session_timeStamp > 1800000`. Subtracting undefined
      gives NaN, which is never greater; subtracting null subtracts 0. */
  predicate Stale(contact: Contact, now: int) {
    match contact.sessionTimeStamp
    case Unset => false
    case Nulled => now > SessionTimeout
    case At(ms) => now - ms > SessionTimeout
  }

  /** `contact.session?.routingId`. */
  function SessionRoutingId(contact: Contact): Option<string> {
    if contact.session.Some? then contact.session.value.routingId else None
  }

  /** What `this.context()` yields: `false` when the store holds no contact,
      otherwise the contact (reset or not) and whether it was reset. */
  datatype Loaded = NoContact | Loaded(contact: Contact, reset: bool)

  /** `this.context()`: reset a stale or re-routed session (empty promise and
      handler lists, empty user data), then default a missing session. */
  function LoadContext(ctx: Context, stored: Option<Contact>, now: int): (r: Loaded)
    ensures stored.None? <==> r.NoContact?
    ensures r.Loaded? ==> r.contact.session.Some?
    ensures r.Loaded? ==> (r.reset <==> Stale(stored.value, now) || ctx.routingId != SessionRoutingId(stored.value))
    ensures r.Loaded? && r.reset ==> r.contact.session == Some(FreshSession) && r.contact.userData == map[]
    ensures r.Loaded? && !r.reset ==>
      && r.contact.userData == stored.value.userData
      && r.contact.sessionTimeStamp == stored.value.sessionTimeStamp
      && (stored.value.session.Some? ==> r.contact.session == stored.value.session)
      && (stored.value.session.None? ==> r.contact.session == Some(FreshSession))
  {
    match stored
    case None => NoContact
    case Some(contact) =>
      var reset := Stale(contact, now) || ctx.routingId != SessionRoutingId(contact);
      var c1 := if reset then contact.(session := Some(FreshSession), userData := map[]) else contact;
      var c2 := if c1.session.None? then c1.(session := Some(FreshSession)) else c1;
      Loaded(c2, reset)
  }

  /** A freshly reset session carries no routing id, so a routed context meets
      it as re-routed again at the next load unless something else records the
      routing id. */
  lemma ResetSessionHasNoRoutingId(ctx: Context, stored: Contact, now: int)
    requires ctx.routingId.Some?
    ensures var r := LoadContext(ctx, Some(stored), now);
      r.reset ==> LoadContext(ctx, Some(r.contact), now).reset
  {
  }

  /** The script entry point a message goes to. */
  datatype Handler = OnSessionStart | OnSessionRouted | ReplyHandle | OnMessageReceive

  /** The entry point's name, as `sb.has` looks it up; the reply snippet is
      called without such a check. */
  function HandlerName(h: Handler): string {
    match h
    case OnSessionStart => "onSessionStart"
    case OnSessionRouted => "onSessionRouted"
    case ReplyHandle => "reply/_handle"
    case OnMessageReceive => "onMessageReceive"
  }

  /** The priority chain of `this.execute`. */
  function SelectHandler(sessionStart: bool, sessionRouted: bool, handlers: seq<Value>): Handler {
    if sessionStart then OnSessionStart
    else if sessionRouted then OnSessionRouted
    else if |handlers| > 0 then ReplyHandle
    else OnMessageReceive
  }

  /** The first handler whose guard holds in a list of guarded handlers, or
      `fallback`: an order-driven reading of the dispatch rule. */
  function FirstEnabled(guards: seq<(bool, Handler)>, fallback: Handler): Handler
    decreases |guards|
  {
    if |guards| == 0 then fallback
    else if guards[0].0 then guards[0].1
    else FirstEnabled(guards[1..], fallback)
  }

  /** The dispatch is the first enabled of: session start, session routed, a
      non-empty handler stack; with message receipt as the fallback. */
  lemma {:induction false} DispatchIsPriorityOrder(sessionStart: bool, sessionRouted: bool, handlers: seq<Value>)
    ensures SelectHandler(sessionStart, sessionRouted, handlers)
         == FirstEnabled([(sessionStart, OnSessionStart), (sessionRouted, OnSessionRouted), (|handlers| > 0, ReplyHandle)],
                         OnMessageReceive)
  {
    var g := [(sessionStart, OnSessionStart), (sessionRouted, OnSessionRouted), (|handlers| > 0, ReplyHandle)];
    var g1 := [(sessionRouted, OnSessionRouted), (|handlers| > 0, ReplyHandle)];
    var g2 := [(|handlers| > 0, ReplyHandle)];
    assert g[1..] == g1 && g1[1..] == g2 && g2[1..] == [];
    if !sessionStart {
      assert FirstEnabled(g, OnMessageReceive) == FirstEnabled(g1, OnMessageReceive);
      if !sessionRouted {
        assert FirstEnabled(g1, OnMessageReceive) == FirstEnabled(g2, OnMessageReceive);
        if |handlers| == 0 {
          assert FirstEnabled(g2, OnMessageReceive) == FirstEnabled([], OnMessageReceive);
        }
      }
    }
  }

  /** What `this.execute()` did: it crashed destructuring a missing contact,
      or it chose a handler and either ran it or found the script without it. */
  datatype Executed = Crashed | Dispatched(handler: Handler, invoked: bool)

  /** `this.execute()`, given what `this.context()` returned, the adapter's
      session-start and session-routed flags, and which entry points the script
      defines. Exceptions from the handler itself are caught and do not change
      the outcome. */
  function Execute(loaded: Loaded, sessionStart: bool, sessionRouted: bool, has: string -> bool): (r: Executed)
    requires loaded.Loaded? ==> loaded.contact.session.Some?
    ensures loaded.NoContact? <==> r.Crashed?
    ensures r.Dispatched? ==>
      r.handler == SelectHandler(sessionStart, sessionRouted, loaded.contact.session.value.handler)
    ensures r.Dispatched? ==> (r.invoked <==> r.handler == ReplyHandle || has(HandlerName(r.handler)))
  {
    match loaded
    case NoContact => Crashed
    case Loaded(contact, _) =>
      var h := SelectHandler(sessionStart, sessionRouted, contact.session.value.handler);
      Dispatched(h, h == ReplyHandle || has(HandlerName(h)))
  }

  /** A message that reset the session is never dispatched to the reply
      snippet: the reset emptied the handler stack. */
  lemma ResetNeverReplies(ctx: Context, stored: Contact, now: int, sessionStart: bool, sessionRouted: bool,
                          has: string -> bool)
    requires LoadContext(ctx, Some(stored), now).reset
    ensures var loaded := LoadContext(ctx, Some(stored), now);
      Execute(loaded, sessionStart, sessionRouted, has).handler != ReplyHandle
  {
  }
}
