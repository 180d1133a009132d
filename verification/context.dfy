/** The context: which backend is connected, the snapshot the application
    reads devices from, and the backend's dispatch hooks.

    Backend initialisation is native code; the model takes it as a function
    `init` from a backend to what its initialisation did: the error it
    returned and the device snapshot, if any, it installed as the safe one.
 */
module Context {
  import opened Common

  /** `enum SoundIoBackend` as the context layer knows it. */
  datatype Backend = BackendNone | PulseAudio | Alsa | Dummy

  /** Which optional backends were compiled in. */
  datatype Config = Config(havePulseAudio: bool, haveAlsa: bool)

  /** `soundio_have_backend`. */
  function HaveBackend(cfg: Config, b: Backend): (r: bool)
    ensures b == BackendNone ==> !r
    ensures b == Dummy ==> r
  {
    match b
    case BackendNone => false
    case PulseAudio => cfg.havePulseAudio
    case Alsa => cfg.haveAlsa
    case Dummy => true
  }

  /** `available_backends`: the compiled-in backends in order of preference. */
  function AvailableBackends(cfg: Config): (r: seq<Backend>)
    ensures |r| >= 1 && r[|r| - 1] == Dummy
    ensures forall i, j :: 0 <= i < j < |r| ==> r[i] != r[j]
    ensures forall i :: 0 <= i < |r| ==> r[i] != BackendNone
  {
    (if cfg.havePulseAudio then [PulseAudio] else [])
    + (if cfg.haveAlsa then [Alsa] else [])
    + [Dummy]
  }

  /** The order of preference is PulseAudio, then ALSA, then the dummy
      backend, and a backend is offered exactly when it was compiled in. */
  lemma AvailableMeansCompiledIn(cfg: Config, b: Backend)
    ensures b in AvailableBackends(cfg) <==> HaveBackend(cfg, b)
    ensures forall i, j ::
              (0 <= i < |AvailableBackends(cfg)| && 0 <= j < |AvailableBackends(cfg)|
               && AvailableBackends(cfg)[i] == PulseAudio && AvailableBackends(cfg)[j] == Alsa) ==> i < j
  {
  }

  datatype Context<S> = Context(backend: Backend, safe: Option<S>, hooksInstalled: bool)

  /** The state `soundio_create` produces and `soundio_disconnect` restores. */
  predicate Disconnected<S>(ctx: Context<S>)
  {
    ctx.backend == BackendNone && ctx.safe.None? && !ctx.hooksInstalled
  }

  /** What a backend's initialisation did. */
  datatype InitOutcome<S> = InitOutcome(err: Error, safe: Option<S>)

  /** The context after an operation, the error code returned, and the
      snapshot the operation released for destruction. */
  datatype Outcome<S> = Outcome(ctx: Context<S>, err: Error, released: Option<S>)

  /** `soundio_disconnect`: runs the backend's teardown, forgets the backend,
      destroys the safe snapshot and clears every hook. */
  function Disconnect<S>(ctx: Context<S>): (r: Outcome<S>)
    ensures Disconnected(r.ctx)
    ensures r.err == NoError
    ensures r.released == ctx.safe
  {
    Outcome(Context(BackendNone, None, false), NoError, ctx.safe)
  }

  /** Disconnecting twice releases nothing the second time. */
  lemma DisconnectIdempotent<S>(ctx: Context<S>)
    ensures Disconnect(Disconnect(ctx).ctx) == Outcome(Disconnect(ctx).ctx, NoError, None)
  {
  }

  /** `soundio_connect_backend`. */
  function ConnectBackend<S>(ctx: Context<S>, backend: Backend, cfg: Config,
                             init: Backend -> InitOutcome<S>): (r: Outcome<S>)
    ensures ctx.backend != BackendNone ==> r == Outcome(ctx, Error.Invalid, None)
    ensures ctx.backend == BackendNone && backend == BackendNone ==> r == Outcome(ctx, Error.Invalid, None)
    ensures ctx.backend == BackendNone && backend != BackendNone && !HaveBackend(cfg, backend) ==>
              r == Outcome(ctx, BackendUnavailable, None)
    ensures ctx.backend == BackendNone && HaveBackend(cfg, backend) ==> r.err == init(backend).err
    ensures ctx.backend == BackendNone && HaveBackend(cfg, backend) && r.err == NoError ==>
              r.ctx == Context(backend, init(backend).safe, true) && r.released.None?
    ensures ctx.backend == BackendNone && HaveBackend(cfg, backend) && r.err != NoError ==>
              Disconnected(r.ctx) && r.released == init(backend).safe
  {
    if ctx.backend != BackendNone then Outcome(ctx, Error.Invalid, None)
    else if backend == BackendNone then Outcome(ctx, Error.Invalid, None)
    else if !HaveBackend(cfg, backend) then Outcome(ctx, BackendUnavailable, None)
    else
      var attempt := init(backend);
      var connected := Context(backend, attempt.safe, true);
      if attempt.err == NoError then Outcome(connected, NoError, None)
      else
        var d := Disconnect(connected);
        Outcome(d.ctx, attempt.err, d.released)
  }

  /** A context is either disconnected or connected to a real backend with
      its hooks installed; `soundio_connect_backend` keeps it that way. */
  predicate Consistent<S>(ctx: Context<S>)
  {
    Disconnected(ctx) || (ctx.backend != BackendNone && ctx.hooksInstalled)
  }

  lemma ConnectBackendKeepsConsistent<S>(ctx: Context<S>, backend: Backend, cfg: Config,
                                         init: Backend -> InitOutcome<S>)
    requires Consistent(ctx)
    ensures Consistent(ConnectBackend(ctx, backend, cfg, init).ctx)
  {
  }

  /** The snapshots the failed initialisations of the first `n` of
      `backends`, tried in that order, installed: each failure disconnects
      and so releases its own. */
  function ReleasedBy<S>(init: Backend -> InitOutcome<S>, backends: seq<Backend>, n: nat): seq<S>
    requires n <= |backends|
  {
    if n == 0 then []
    else
      var last := init(backends[n - 1]);
      ReleasedBy(init, backends, n - 1)
      + (if last.err != NoError && last.safe.Some? then [last.safe.value] else [])
  }

  /** What `soundio_connect` leaves: the context, the error code, and every
      snapshot released on the way, in order. */
  datatype Connection<S> = Connection(ctx: Context<S>, err: Error, released: seq<S>)

  /** `soundio_connect`: tries each compiled-in backend in order. It stops at
      the first success, and at the first failure other than "could not
      initialise the backend"; when every backend fails that way, that error
      is returned. Every failed attempt releases what it installed. */
  method Connect<S>(ctx: Context<S>, cfg: Config, init: Backend -> InitOutcome<S>)
    returns (r: Connection<S>)
    ensures var list := AvailableBackends(cfg);
      ctx.backend == BackendNone ==>
        && (r.err == NoError ==>
              exists k :: 0 <= k < |list| && list[k] == r.ctx.backend
                && init(list[k]).err == NoError && r.ctx.safe == init(list[k]).safe
                && (forall j :: 0 <= j < k ==> init(list[j]).err == InitAudioBackend)
                && r.released == ReleasedBy(init, list, k))
        && (r.err != NoError ==> Disconnected(r.ctx))
        && (r.err != NoError && r.err != InitAudioBackend ==>
              exists k :: 0 <= k < |list| && init(list[k]).err == r.err
                && (forall j :: 0 <= j < k ==> init(list[j]).err == InitAudioBackend)
                && r.released == ReleasedBy(init, list, k + 1))
        && (r.err == InitAudioBackend <==>
              forall j :: 0 <= j < |list| ==> init(list[j]).err == InitAudioBackend)
        && (r.err == InitAudioBackend ==> r.released == ReleasedBy(init, list, |list|))
    ensures ctx.backend != BackendNone ==> r == Connection(ctx, Error.Invalid, [])
  {
    var list := AvailableBackends(cfg);
    if ctx.backend != BackendNone {
      var o := ConnectBackend(ctx, list[0], cfg, init);
      return Connection(ctx, o.err, []);
    }
    var cur := ctx;
    var err := NoError;
    var released: seq<S> := [];
    var i := 0;
    while i < |list|
      invariant 0 <= i <= |list|
      invariant i == 0 ==> cur == ctx
      invariant i > 0 ==> Disconnected(cur) && err == InitAudioBackend
      invariant forall j :: 0 <= j < i ==> init(list[j]).err == InitAudioBackend
      invariant released == ReleasedBy(init, list, i)
    {
      AvailableMeansCompiledIn(cfg, list[i]);
      assert cur.backend == BackendNone && HaveBackend(cfg, list[i]);
      var o := ConnectBackend(cur, list[i], cfg, init);
      err := o.err;
      cur := o.ctx;
      if err == NoError {
        assert cur == Context(list[i], init(list[i]).safe, true);
        return Connection(cur, NoError, released);
      }
      assert o.released == init(list[i]).safe;
      released := released + (if o.released.Some? then [o.released.value] else []);
      if err != InitAudioBackend {
        assert init(list[i]).err == err && released == ReleasedBy(init, list, i + 1);
        return Connection(cur, err, released);
      }
      assert init(list[i]).err == InitAudioBackend;
      i := i + 1;
    }
    return Connection(cur, err, released);
  }
}
