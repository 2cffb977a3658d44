/**
 * The module-level lifecycle of the single UCX application context: the
 * global slot `_ctx`, its lazy creation, `init`, `get_config` and `reset`
 * with leak detection.
 *
 * `Api` is the abstract state and the `...Step` functions say what each
 * operation does to it; class `Ucp` holds the module globals and its
 * methods are proved to follow the step functions.
 */
module Context {
  import opened Wrappers
  import opened Options
  import opened Leak

  /** A native application context: its identity and the configuration it runs with. */
  datatype NativeContext = NativeContext(token: Token, config: map<string, string>)

  datatype Error =
    | RuntimeError(message: string)  // `init` while a context exists
    | UcxError(message: string)      // `reset` found the old context still referenced

  const AlreadyInitiated: string :=
    "UCX is already initiated. Call reset() and init() "
    + "in order to re-initate UCX with new options."

  /**
   * The state of the module: the process environment, the slot `_ctx`,
   * the identity the next native context will get, and the registry of
   * live Endpoints and Listeners (with the next identity to hand out).
   */
  datatype Api = Api(
    env: map<string, string>,
    slot: Option<NativeContext>,
    nextToken: Token,
    holders: seq<Holder>,
    nextHolder: nat)

  /** The state at import time: no context. */
  function Initial(env: map<string, string>): Api
  {
    Api(env, None, 0, [], 0)
  }

  /** The configuration of a context created without options. */
  function DefaultConfig(env: map<string, string>): map<string, string>
  {
    Effective(env, map[])
  }

  /** `_get_ctx`: create the context if the slot is empty, and return it. */
  function GetCtxStep(s: Api): (Api, NativeContext)
  {
    if s.slot.Some? then (s, s.slot.value)
    else
      var c := NativeContext(s.nextToken, DefaultConfig(s.env));
      (s.(slot := Some(c), nextToken := s.nextToken + 1), c)
  }

  /** What `init` leaves behind: the new state, the caller's option dict, and the error raised. */
  datatype InitOutcome = InitOutcome(state: Api, options: map<string, string>, error: Option<Error>)

  /** `init(options, env_takes_precedence)`. */
  function InitStep(s: Api, options: map<string, string>, envTakesPrecedence: bool): InitOutcome
  {
    if s.slot.Some? then InitOutcome(s, options, Some(RuntimeError(AlreadyInitiated)))
    else
      var passed := if envTakesPrecedence then Filtered(options, s.env.Keys) else options;
      var c := NativeContext(s.nextToken, Effective(s.env, passed));
      InitOutcome(s.(slot := Some(c), nextToken := s.nextToken + 1), passed, None)
  }

  /** `get_config()`: the defaults when there is no context, else the live context's. */
  function ConfigOf(s: Api): map<string, string>
  {
    if s.slot.None? then DefaultConfig(s.env) else s.slot.value.config
  }

  /** `reset()`: empty the slot, then report the old context if anything still references it. */
  function ResetStep(s: Api): (Api, Option<Error>)
  {
    if s.slot.None? then (s, None)
    else
      var referrers := Referrers(s.holders, s.slot.value.token);
      (s.(slot := None), if referrers == [] then None else Some(UcxError(LeakMessage(referrers))))
  }

  /**
   * `create_listener` / `create_endpoint`: the context is obtained through
   * `_get_ctx`, and the new object references it until released.
   */
  function AttachStep(s: Api, kind: HolderKind, text: string): (Api, nat)
  {
    var (s1, c) := GetCtxStep(s);
    var h := Holder(kind, s1.nextHolder, c.token, text);
    (s1.(holders := s1.holders + [h], nextHolder := s1.nextHolder + 1), h.id)
  }

  /** `holders` without the one whose identity is `id`. */
  function Without(holders: seq<Holder>, id: nat): (r: seq<Holder>)
    ensures |r| <= |holders|
    ensures forall h :: h in r <==> h in holders && h.id != id
  {
    if holders == [] then []
    else
      assert holders == [holders[0]] + holders[1..];
      (if holders[0].id == id then [] else [holders[0]]) + Without(holders[1..], id)
  }

  /** An Endpoint or Listener is closed, or collected, and no longer references its context. */
  function ReleaseStep(s: Api, id: nat): Api
  {
    s.(holders := Without(s.holders, id))
  }

  /** A call into the public API, or the release of an object it handed out. */
  datatype Call =
    | GetCtxCall
    | InitCall(options: map<string, string>, envTakesPrecedence: bool)
    | GetConfigCall
    | ResetCall
    | CreateListenerCall(text: string)
    | CreateEndpointCall(text: string)
    | ReleaseCall(id: nat)

  function Apply(s: Api, call: Call): Api
  {
    match call
    case GetCtxCall => GetCtxStep(s).0
    case InitCall(options, precedence) => InitStep(s, options, precedence).state
    case GetConfigCall => s
    case ResetCall => ResetStep(s).0
    case CreateListenerCall(text) => AttachStep(s, ListenerHolder, text).0
    case CreateEndpointCall(text) => AttachStep(s, EndpointHolder, text).0
    case ReleaseCall(id) => ReleaseStep(s, id)
  }

  function Run(s: Api, calls: seq<Call>): Api
    decreases |calls|
  {
    if calls == [] then s else Run(Apply(s, calls[0]), calls[1..])
  }

  /**
   * Every context that exists, in the slot or held by an object, was
   * created before: its identity is below `nextToken`. Object identities
   * are below `nextHolder` and pairwise distinct.
   */
  predicate Inv(s: Api)
  {
    && (s.slot.Some? ==> s.slot.value.token < s.nextToken)
    && (forall h :: h in s.holders ==> h.ctx < s.nextToken && h.id < s.nextHolder)
    && Distinct(s.holders)
  }

  /** No two live objects share an identity. */
  predicate Distinct(holders: seq<Holder>)
    decreases |holders|
  {
    holders == []
    || ((forall h :: h in holders[1..] ==> h.id != holders[0].id) && Distinct(holders[1..]))
  }

  // ---------------------------------------------------------------------------
  // `_get_ctx`

  /**
   * `_get_ctx` creates a context only when the slot is empty; afterwards the
   * slot holds the returned context, and a second call returns the same one
   * without creating another.
   */
  lemma GetCtxCreatesOnce(s: Api)
    ensures var (s1, c) := GetCtxStep(s);
      && s1.slot == Some(c)
      && (s.slot.Some? ==> s1 == s && c == s.slot.value)
      && (s.slot.None? ==> s1.nextToken == s.nextToken + 1 && c.token == s.nextToken
                           && c.config == DefaultConfig(s.env)
                           && s1.holders == s.holders)
      && GetCtxStep(s1) == (s1, c)
  {
  }

  // ---------------------------------------------------------------------------
  // `init`

  /** `init` on a live context raises and changes neither the state nor the options. */
  lemma InitRefusesWhenLive(s: Api, options: map<string, string>, envTakesPrecedence: bool)
    requires s.slot.Some?
    ensures InitStep(s, options, envTakesPrecedence)
         == InitOutcome(s, options, Some(RuntimeError(AlreadyInitiated)))
  {
  }

  /**
   * With `env_takes_precedence`, `init` deletes from the caller's options
   * exactly the keys that are environment variables, keeps the others with
   * their values, and the new context sees the environment's value for
   * every environment variable.
   */
  lemma InitEnvironmentTakesPrecedence(s: Api, options: map<string, string>)
    requires s.slot.None?
    ensures var out := InitStep(s, options, true);
      && out.error == None
      && (forall k :: k in out.options <==> k in options && k !in s.env)
      && (forall k :: k in out.options ==> out.options[k] == options[k])
      && out.state.slot == Some(NativeContext(s.nextToken, Effective(s.env, out.options)))
      && (forall k :: k in s.env ==> out.state.slot.value.config[k] == s.env[k])
  {
  }

  /**
   * Without `env_takes_precedence`, `init` passes the options unchanged, and
   * they override the environment in the new context.
   */
  lemma InitOptionsTakePrecedence(s: Api, options: map<string, string>)
    requires s.slot.None?
    ensures var out := InitStep(s, options, false);
      && out.error == None
      && out.options == options
      && out.state.slot == Some(NativeContext(s.nextToken, Effective(s.env, options)))
      && (forall k :: k in options ==> out.state.slot.value.config[k] == options[k])
  {
  }

  // ---------------------------------------------------------------------------
  // `get_config`

  /**
   * `get_config` does not create a context, yet answers what the context
   * `_get_ctx` would create runs with.
   */
  lemma ConfigAgreesWithLazyContext(s: Api)
    ensures ConfigOf(GetCtxStep(s).0) == ConfigOf(s)
    ensures s.slot.None? ==> ConfigOf(s) == GetCtxStep(s).1.config
  {
  }

  // ---------------------------------------------------------------------------
  // `reset`

  /**
   * `reset` on an empty slot changes nothing; on a live slot it empties the
   * slot whether or not it raises, and touches nothing else.
   */
  lemma ResetEmptiesSlot(s: Api)
    ensures ResetStep(s).0 == s.(slot := None)
    ensures s.slot.None? ==> ResetStep(s) == (s, None)
  {
  }

  /**
   * `reset` raises exactly when some live object still references the old
   * context, and then raises `UCXError` whose message lists those objects.
   */
  lemma ResetLeakIff(s: Api)
    requires s.slot.Some?
    ensures var (_, err) := ResetStep(s);
      var token := s.slot.value.token;
      && (err.Some? <==> exists h :: h in s.holders && h.ctx == token)
      && (err.Some? ==> err.value == UcxError(LeakMessage(Referrers(s.holders, token))))
  {
  }

  /**
   * After `reset`, whether or not it raised, the next `_get_ctx` creates a
   * context with the default configuration that nothing references yet,
   * so resetting it again succeeds.
   */
  lemma FreshContextAfterReset(s: Api)
    requires Inv(s)
    ensures var (s2, c) := GetCtxStep(ResetStep(s).0);
      && c.config == DefaultConfig(s.env)
      && (forall h :: h in s2.holders ==> h.ctx != c.token)
      && ResetStep(s2) == (s2.(slot := None), None)
  {
  }

  /**
   * A context whose `reset` raised stays referenced, and the slot is empty
   * again: the next API call creates a second context while the first is
   * still alive.
   */
  lemma LeakedContextOutlivesReset(env: map<string, string>)
    ensures var s := Run(Initial(env), [CreateListenerCall("<Listener>"), ResetCall, GetCtxCall]);
      && s.slot.Some? && s.slot.value.token == 1
      && s.holders == [Holder(ListenerHolder, 0, 0, "<Listener>")]
  {
  }

  /**
   * An object created through `create_listener` or `create_endpoint`
   * references the live context, so a `reset` right after it raises and
   * names that object.
   */
  lemma AttachThenResetRaises(s: Api, kind: HolderKind, text: string)
    requires Inv(s)
    ensures var (s1, id) := AttachStep(s, kind, text);
      && s1.slot.Some?
      && ResetStep(s1).1.Some?
      && Holder(kind, id, s1.slot.value.token, text) in Referrers(s1.holders, s1.slot.value.token)
  {
  }

  /**
   * When `reset` raises, the next API call creates a new context while
   * some object still references the old one.
   */
  lemma RaisingResetThenNewContext(s: Api)
    requires Inv(s) && s.slot.Some? && ResetStep(s).1.Some?
    ensures var (s2, c) := GetCtxStep(ResetStep(s).0);
      && s2.slot == Some(c)
      && c.token != s.slot.value.token
      && exists h :: h in s2.holders && h.ctx == s.slot.value.token
  {
    var r := Referrers(s.holders, s.slot.value.token);
    assert r[0] in r;
  }

  // ---------------------------------------------------------------------------
  // Invariant

  /** At import time the invariant holds. */
  lemma InitialInv(env: map<string, string>)
    ensures Inv(Initial(env))
  {
  }

  /** A newly created Endpoint or Listener gets an identity no live object has. */
  lemma AttachGivesFreshId(s: Api, kind: HolderKind, text: string)
    requires Inv(s)
    ensures var (s1, id) := AttachStep(s, kind, text);
      && (forall h :: h in s.holders ==> h.id != id)
      && ReleaseStep(s1, id).holders == s.holders
  {
    var (s1, id) := AttachStep(s, kind, text);
    var h := Holder(kind, id, s1.slot.value.token, text);
    WithoutAbsent(s.holders, id);
    WithoutAppend(s.holders, [h], id);
    assert Without([h], id) == [] + Without([h][1..], id);
  }

  /** Removing an identity from a concatenation removes it from both parts. */
  lemma {:induction false} WithoutAppend(xs: seq<Holder>, ys: seq<Holder>, id: nat)
    ensures Without(xs + ys, id) == Without(xs, id) + Without(ys, id)
  {
    if xs == [] {
      assert xs + ys == ys;
    } else {
      assert (xs + ys)[0] == xs[0];
      assert (xs + ys)[1..] == xs[1..] + ys;
      WithoutAppend(xs[1..], ys, id);
    }
  }

  /** Removing an identity no holder has leaves the holders as they were. */
  lemma {:induction false} WithoutAbsent(holders: seq<Holder>, id: nat)
    requires forall h :: h in holders ==> h.id != id
    ensures Without(holders, id) == holders
  {
    if holders != [] {
      assert forall h :: h in holders[1..] ==> h in holders;
      WithoutAbsent(holders[1..], id);
      assert holders == [holders[0]] + holders[1..];
    }
  }

  /** Releasing an object keeps the remaining identities distinct. */
  lemma {:induction false} WithoutKeepsDistinct(holders: seq<Holder>, id: nat)
    requires Distinct(holders)
    ensures Distinct(Without(holders, id))
    decreases |holders|
  {
    if holders != [] {
      WithoutKeepsDistinct(holders[1..], id);
      var rest := Without(holders[1..], id);
      if holders[0].id != id {
        assert Without(holders, id) == [holders[0]] + rest;
        assert ([holders[0]] + rest)[1..] == rest;
        assert forall h :: h in rest ==> h in holders[1..];
      } else {
        assert Without(holders, id) == [] + rest;
        assert [] + rest == rest;
      }
    }
  }

  /** Appending an object whose identity no live object has keeps identities distinct. */
  lemma {:induction false} AppendKeepsDistinct(holders: seq<Holder>, h: Holder)
    requires Distinct(holders)
    requires forall g :: g in holders ==> g.id != h.id
    ensures Distinct(holders + [h])
    decreases |holders|
  {
    if holders != [] {
      assert (holders + [h])[1..] == holders[1..] + [h];
      assert forall g :: g in holders[1..] ==> g in holders;
      AppendKeepsDistinct(holders[1..], h);
    } else {
      assert holders + [h] == [h];
    }
  }

  lemma ApplyKeepsInv(s: Api, call: Call)
    requires Inv(s)
    ensures Inv(Apply(s, call))
  {
    match call
    case ReleaseCall(id) =>
      WithoutKeepsDistinct(s.holders, id);
    case CreateListenerCall(text) =>
      var (s1, c) := GetCtxStep(s);
      AppendKeepsDistinct(s1.holders, Holder(ListenerHolder, s1.nextHolder, c.token, text));
    case CreateEndpointCall(text) =>
      var (s1, c) := GetCtxStep(s);
      AppendKeepsDistinct(s1.holders, Holder(EndpointHolder, s1.nextHolder, c.token, text));
    case _ =>
  }

  /**
   * Once a context is live, no sequence of calls without `reset` replaces
   * it or creates another: the module keeps one application context.
   */
  lemma {:induction false} OneContextUntilReset(s: Api, calls: seq<Call>)
    requires s.slot.Some?
    requires ResetCall !in calls
    ensures Run(s, calls).slot == s.slot
    ensures Run(s, calls).nextToken == s.nextToken
    decreases |calls|
  {
    if calls != [] {
      assert calls[0] != ResetCall;
      assert forall c :: c in calls[1..] ==> c in calls;
      OneContextUntilReset(Apply(s, calls[0]), calls[1..]);
    }
  }

  /** No sequence of calls breaks `Inv`, starting from import time. */
  lemma {:induction false} RunKeepsInv(s: Api, calls: seq<Call>)
    requires Inv(s)
    ensures Inv(Run(s, calls))
    decreases |calls|
  {
    if calls != [] {
      ApplyKeepsInv(s, calls[0]);
      RunKeepsInv(Apply(s, calls[0]), calls[1..]);
    }
  }

  // ---------------------------------------------------------------------------
  // The module globals

  /** The module `ucp.public_api` with its global `_ctx`. */
  class Ucp {
    const env: map<string, string>
    var ctx: Option<NativeContext>
    var nextToken: Token
    var holders: seq<Holder>
    var nextHolder: nat

    function State(): Api
      reads this
    {
      Api(env, ctx, nextToken, holders, nextHolder)
    }

    /** Import time: `_ctx = None`. */
    constructor (env: map<string, string>)
      ensures State() == Initial(env)
    {
      this.env := env;
      ctx := None;
      nextToken := 0;
      holders := [];
      nextHolder := 0;
    }

    method GetCtx() returns (c: NativeContext)
      modifies this
      ensures (State(), c) == GetCtxStep(old(State()))
    {
      if ctx.None? {
        ctx := Some(NativeContext(nextToken, DefaultConfig(env)));
        nextToken := nextToken + 1;
      }
      c := ctx.value;
    }

    method Init(options: OptionDict, envTakesPrecedence: bool) returns (err: Option<Error>)
      modifies this, options
      ensures InitOutcome(State(), options.entries, err)
           == InitStep(old(State()), old(options.entries), envTakesPrecedence)
    {
      if ctx.Some? {
        return Some(RuntimeError(AlreadyInitiated));
      }
      if envTakesPrecedence {
        var pending := env.Keys;
        while pending != {}
          invariant pending <= env.Keys
          invariant options.entries == Filtered(old(options.entries), env.Keys - pending)
          modifies options
          decreases pending
        {
          var k :| k in pending;
          if k in options.entries {
            options.entries := options.entries - {k};
          }
          assert env.Keys - (pending - {k}) == (env.Keys - pending) + {k};
          pending := pending - {k};
        }
        assert env.Keys - pending == env.Keys;
      }
      ctx := Some(NativeContext(nextToken, Effective(env, options.entries)));
      nextToken := nextToken + 1;
      err := None;
    }

    method GetConfig() returns (config: map<string, string>)
      modifies this
      ensures State() == old(State())
      ensures config == ConfigOf(old(State()))
    {
      if ctx.None? {
        config := DefaultConfig(env);
      } else {
        var c := GetCtx();
        config := c.config;
      }
    }

    method Reset() returns (err: Option<Error>)
      modifies this
      ensures (State(), err) == ResetStep(old(State()))
    {
      err := None;
      if ctx.Some? {
        var dropped := ctx.value;
        ctx := None;
        var referrers := Referrers(holders, dropped.token);
        if referrers != [] {
          var msg := BuildLeakMessage(referrers);
          err := Some(UcxError(msg));
        }
      }
    }

    method CreateListener(text: string) returns (id: nat)
      modifies this
      ensures (State(), id) == AttachStep(old(State()), ListenerHolder, text)
    {
      var c := GetCtx();
      id := nextHolder;
      holders := holders + [Holder(ListenerHolder, id, c.token, text)];
      nextHolder := nextHolder + 1;
    }

    method CreateEndpoint(text: string) returns (id: nat)
      modifies this
      ensures (State(), id) == AttachStep(old(State()), EndpointHolder, text)
    {
      var c := GetCtx();
      id := nextHolder;
      holders := holders + [Holder(EndpointHolder, id, c.token, text)];
      nextHolder := nextHolder + 1;
    }

    method Release(id: nat)
      modifies this
      ensures State() == ReleaseStep(old(State()), id)
    {
      holders := Without(holders, id);
    }
  }
}
