/** The session state machine: what a frame of the client asks the server to do. */
module Session {
  import opened Bytes
  import opened Callers
  import opened Protocol

  const MAX_ACTIONS: nat := 4

  datatype Settings = Settings(version: nat, paddingMd5: Bytes)

  /** `read` is the reading of a SETTINGS payload; the rest is the server's own configuration. */
  datatype Conf = Conf(read: Bytes -> Settings, paddingMd5: Bytes, padding: Bytes)

  datatype Core = Core(settingsReceived: bool, peerVersion: nat)

  datatype Action =
    | QueueControl(cmd: byte, sid: nat, data: Bytes)
    | OpenStream(sid: nat)
    | ForwardPayload(sid: nat, data: Bytes)
    | ClientFin(sid: nat)
    | ProtocolError
    | ClientAlert(data: Bytes)

  /** With `ok` false a session ends once its actions have been carried out; without an action, the
      error is for the caller. */
  datatype Handled = Handled(ok: bool, core: Core, actions: seq<Action>)

  const VERSION_TWO: Bytes := [118, 61, 50]

  function Greeting(conf: Conf, s: Settings): seq<Action> {
    (if s.paddingMd5 == conf.paddingMd5 && |s.paddingMd5| == 32 then []
     else [QueueControl(UPDATE_PADDING, 0, conf.padding)])
    + (if s.version >= 2 then [QueueControl(SERVER_SETTINGS, 0, VERSION_TWO)] else [])
  }

  function HandleFrame(conf: Conf, core: Core, f: Frame): (h: Handled)
    ensures |h.actions| <= MAX_ACTIONS
  {
    if f.cmd == SETTINGS then
      var s := conf.read(f.data);
      Handled(true, Core(true, s.version), Greeting(conf, s))
    else if f.cmd == HEART_REQUEST then Handled(true, core, [QueueControl(HEART_RESPONSE, f.sid, [])])
    else if f.cmd == SYN then
      if !core.settingsReceived then Handled(false, core, [ProtocolError])
      else if f.sid == 0 then Handled(false, core, [])
      else Handled(true, core, [OpenStream(f.sid)])
    else if f.cmd == PSH then Handled(true, core, [ForwardPayload(f.sid, f.data)])
    else if f.cmd == FIN then Handled(true, core, [ClientFin(f.sid)])
    else if f.cmd == ALERT then
      if f.data == [] then Handled(true, core, []) else Handled(false, core, [ClientAlert(f.data)])
    else Handled(true, core, [])
  }

  /** A frame and on whose behalf it is handled. */
  datatype Asked = Asked(frame: Frame, who: Caller)

  /** A whole session: the state and every action so far. */
  datatype Trace = Trace(live: bool, core: Core, actions: seq<Action>)

  function Start(): Trace {
    Trace(true, Core(false, 1), [])
  }

  /** Only the read handler ends the session for an error that is not an action: a SYN for stream 0. */
  predicate GoesOn(h: Handled, who: Caller) {
    h.ok || (h.actions == [] && !who.Reader?)
  }

  function Step(conf: Conf, t: Trace, a: Asked): Trace {
    if !t.live then t
    else
      var h := HandleFrame(conf, t.core, a.frame);
      Trace(GoesOn(h, a.who), h.core, t.actions + h.actions)
  }

  function Run(conf: Conf, fs: seq<Asked>): Trace
    decreases |fs|
  {
    if fs == [] then Start() else Step(conf, Run(conf, Init(fs)), fs[|fs| - 1])
  }

  function Init(fs: seq<Asked>): (before: seq<Asked>)
    requires fs != []
    ensures |before| == |fs| - 1
  {
    fs[..|fs| - 1]
  }

  function Last(fs: seq<Asked>): Frame
    requires fs != []
  {
    fs[|fs| - 1].frame
  }

  predicate HasSettings(fs: seq<Asked>) {
    fs != [] && (Last(fs).cmd == SETTINGS || HasSettings(Init(fs)))
  }

  /** What the latest SETTINGS frame says; a client that sent none speaks version 1. */
  function LatestVersion(conf: Conf, fs: seq<Asked>): nat {
    if fs == [] then 1
    else if Last(fs).cmd == SETTINGS then conf.read(Last(fs).data).version
    else LatestVersion(conf, Init(fs))
  }

  /** Some SYN for this id comes after some SETTINGS. */
  predicate SynAfterSettings(fs: seq<Asked>, sid: nat) {
    && fs != []
    && ((Last(fs).cmd == SYN && Last(fs).sid == sid && HasSettings(Init(fs))) || SynAfterSettings(Init(fs), sid))
  }

  predicate VersionTwo(conf: Conf, fs: seq<Asked>) {
    fs != [] && ((Last(fs).cmd == SETTINGS && conf.read(Last(fs).data).version >= 2) || VersionTwo(conf, Init(fs)))
  }

  /** Settings are in force exactly when a SETTINGS frame was handled, and they are the latest. */
  lemma {:induction false} SettingsInForce(conf: Conf, fs: seq<Asked>)
    requires Run(conf, fs).live
    ensures Run(conf, fs).core == Core(HasSettings(fs), LatestVersion(conf, fs))
    decreases |fs|
  {
    if fs != [] {
      SettingsInForce(conf, Init(fs));
    }
  }

  /** In every session a stream is opened by a SYN with its id that comes after a SETTINGS frame, and
      only so; no stream has id 0, and a session with an earlier SYN is over. */
  lemma {:induction false} OpenedIff(conf: Conf, fs: seq<Asked>, sid: nat)
    ensures OpenStream(sid) in Run(conf, fs).actions ==> sid != 0 && SynAfterSettings(fs, sid)
    ensures Run(conf, fs).live ==> (OpenStream(sid) in Run(conf, fs).actions <==> sid != 0 && SynAfterSettings(fs, sid))
    decreases |fs|
  {
    if fs != [] {
      OpenedIff(conf, Init(fs), sid);
      if Run(conf, Init(fs)).live {
        SettingsInForce(conf, Init(fs));
      }
    }
  }

  /** The server speaks of version 2 exactly to a client that did. */
  lemma {:induction false} VersionTwoIsAnswered(conf: Conf, fs: seq<Asked>)
    requires Run(conf, fs).live
    ensures QueueControl(SERVER_SETTINGS, 0, VERSION_TWO) in Run(conf, fs).actions <==> VersionTwo(conf, fs)
    decreases |fs|
  {
    if fs != [] {
      VersionTwoIsAnswered(conf, Init(fs));
    }
  }

  /** What a session asks of its streams, in order: for every stream its payload and its end. */
  function Requests(actions: seq<Action>, sid: nat): seq<Action> {
    if actions == [] then []
    else
      var a := actions[0];
      (if (a.ForwardPayload? || a.ClientFin?) && a.sid == sid then [a] else []) + Requests(actions[1..], sid)
  }

  /** What the client's frames say about one stream. */
  function Said(fs: seq<Asked>, sid: nat): seq<Action> {
    if fs == [] then []
    else
      var f := Last(fs);
      Said(Init(fs), sid)
      + (if f.sid != sid then [] else if f.cmd == PSH then [ForwardPayload(sid, f.data)]
        else if f.cmd == FIN then [ClientFin(sid)] else [])
  }

  lemma {:induction false} RequestsAppend(a: seq<Action>, b: seq<Action>, sid: nat)
    ensures Requests(a + b, sid) == Requests(a, sid) + Requests(b, sid)
    decreases |a|
  {
    if a == [] {
      assert a + b == b;
    } else {
      assert (a + b)[1..] == a[1..] + b;
      RequestsAppend(a[1..], b, sid);
    }
  }

  lemma RequestsOfFrame(conf: Conf, core: Core, f: Frame, sid: nat)
    requires HandleFrame(conf, core, f).ok || HandleFrame(conf, core, f).actions == []
    ensures Requests(HandleFrame(conf, core, f).actions, sid)
         == if f.sid != sid then [] else if f.cmd == PSH then [ForwardPayload(sid, f.data)]
           else if f.cmd == FIN then [ClientFin(sid)] else []
  {
    var s := conf.read(f.data);
    if f.cmd == SETTINGS {
      RequestsAppend(if s.paddingMd5 == conf.paddingMd5 && |s.paddingMd5| == 32 then []
                     else [QueueControl(UPDATE_PADDING, 0, conf.padding)],
                     if s.version >= 2 then [QueueControl(SERVER_SETTINGS, 0, VERSION_TWO)] else [], sid);
    }
  }

  /** Payload and FIN of every stream are passed on completely and in the client's order. */
  lemma {:induction false} RequestsInOrder(conf: Conf, fs: seq<Asked>, sid: nat)
    requires Run(conf, fs).live
    ensures Requests(Run(conf, fs).actions, sid) == Said(fs, sid)
    decreases |fs|
  {
    if fs != [] {
      var before := Run(conf, Init(fs));
      RequestsInOrder(conf, Init(fs), sid);
      RequestsAppend(before.actions, HandleFrame(conf, before.core, Last(fs)).actions, sid);
      RequestsOfFrame(conf, before.core, Last(fs), sid);
    }
  }
}
