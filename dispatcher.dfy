/** The main loop of influxdl (`app.Action`): every pass computes the next
    event afresh, then waits for the earlier of its timer and a termination
    signal. A fired timer writes one annotation and logs its error, if any; a
    signal ends only the `select`, so the loop goes round again. */
module Dispatcher {
  import opened Wrappers
  import opened Scheduler
  import opened Annotation

  /** The settings read once at start-up. */
  datatype Config = Config(addr: string, username: string, password: string, location: Location)

  /** The collaborators fixed for the life of the process. */
  datatype Collaborators = Collaborators(sun: Almanac, dateOf: Calendar, lib: Library)

  /** Which side of the `select` won this pass; a fired timer carries how the
      network answers the request sent in this pass. */
  datatype Wake = TimerFired(send: Transport) | SignalReceived

  /** One pass of the loop as the environment decides it: the clock reading
      taken by `nextTime` and the winner of the race. */
  datatype Pass = Pass(now: Instant, wake: Wake)

  /** One `addAnnotation` call: its label and instant and the error it returned. */
  datatype Write = Write(text: string, t: Instant, error: Option<Error>)

  /** The event a pass computes. */
  function EventOf(cfg: Config, env: Collaborators, p: Pass): Event {
    NextTime(p.now, cfg.location, env.sun, env.dateOf)
  }

  /** The writes one pass performs. */
  function PassWrites(cfg: Config, env: Collaborators, p: Pass): (ws: seq<Write>)
    ensures |ws| == if p.wake.TimerFired? then 1 else 0
    ensures |ws| == 1 ==> ws[0].text == EventOf(cfg, env, p).text && ws[0].t == EventOf(cfg, env, p).at
  {
    match p.wake
    case SignalReceived => []
    case TimerFired(send) =>
      var e := EventOf(cfg, env, p);
      [Write(e.text, e.at, AddAnnotation(cfg.addr, cfg.username, cfg.password, e.text, e.at, env.lib, send))]
  }

  /** The writes of consecutive passes, in order. */
  function RunWrites(cfg: Config, env: Collaborators, ps: seq<Pass>): seq<Write>
    decreases |ps|
  {
    if ps == [] then [] else RunWrites(cfg, env, ps[..|ps| - 1]) + PassWrites(cfg, env, ps[|ps| - 1])
  }

  /** The messages logged by a sequence of writes: one per failed write. */
  function Failures(ws: seq<Write>): (lines: seq<string>)
    ensures |lines| <= |ws|
    ensures forall m :: m in lines <==> exists k :: 0 <= k < |ws| && ws[k].error == Some(Error(m))
    ensures (forall k :: 0 <= k < |ws| ==> ws[k].error.None?) <==> lines == []
    decreases |ws|
  {
    if ws == [] then []
    else Failures(ws[..|ws| - 1]) + (if ws[|ws| - 1].error.Some? then [ws[|ws| - 1].error.value.message] else [])
  }

  /** The passes whose timer fired, in order. */
  function Fired(ps: seq<Pass>): (fs: seq<Pass>)
    ensures |fs| <= |ps|
    ensures forall k :: 0 <= k < |fs| ==> fs[k].wake.TimerFired? && fs[k] in ps
    decreases |ps|
  {
    if ps == [] then [] else Fired(ps[..|ps| - 1]) + (if ps[|ps| - 1].wake.TimerFired? then [ps[|ps| - 1]] else [])
  }

  /** The observable history of the loop: the annotation calls it made, the
      lines it logged, and how many times control reached the top of the loop. */
  class Loop {
    const cfg: Config
    const env: Collaborators
    var writes: seq<Write>
    var log: seq<string>
    var passes: nat

    /** Every logged line is the message of a failed write, in order. */
    ghost predicate Valid()
      reads this
    {
      log == Failures(writes)
    }

    constructor (cfg: Config, env: Collaborators)
      ensures this.cfg == cfg && this.env == env
      ensures writes == [] && log == [] && passes == 0
      ensures Valid()
    {
      this.cfg := cfg;
      this.env := env;
      writes, log, passes := [], [], 0;
    }

    /** One pass of the `for` loop. */
    method Iterate(p: Pass)
      requires Valid()
      modifies this
      ensures Valid()
      ensures writes == old(writes) + PassWrites(cfg, env, p)
      ensures passes == old(passes) + 1
    {
      var e := NextTime(p.now, cfg.location, env.sun, env.dateOf);
      match p.wake {
        case TimerFired(send) =>
          var err := AddAnnotation(cfg.addr, cfg.username, cfg.password, e.text, e.at, env.lib, send);
          writes := writes + [Write(e.text, e.at, err)];
          if err.Some? {
            log := log + [err.value.message];
          }
        case SignalReceived =>
      }
      passes := passes + 1;
    }

    /** The first `|ps|` passes of the unbounded `for` loop. */
    method Run(ps: seq<Pass>)
      requires Valid()
      modifies this
      ensures Valid()
      ensures writes == old(writes) + RunWrites(cfg, env, ps)
      ensures passes == old(passes) + |ps|
    {
      var i := 0;
      while i < |ps|
        invariant 0 <= i <= |ps|
        invariant Valid()
        invariant writes == old(writes) + RunWrites(cfg, env, ps[..i])
        invariant passes == old(passes) + i
      {
        assert ps[..i + 1][..i] == ps[..i];
        Iterate(ps[i]);
        i := i + 1;
      }
      assert ps[..i] == ps;
    }
  }

  /** Splitting a run: the writes of `ps + qs` are those of `ps` followed by those of `qs`. */
  lemma {:induction false} RunWritesAppend(cfg: Config, env: Collaborators, ps: seq<Pass>, qs: seq<Pass>)
    ensures RunWrites(cfg, env, ps + qs) == RunWrites(cfg, env, ps) + RunWrites(cfg, env, qs)
    decreases |qs|
  {
    if qs == [] {
      assert ps + qs == ps;
    } else {
      var qs' := qs[..|qs| - 1];
      assert (ps + qs)[..|ps + qs| - 1] == ps + qs';
      RunWritesAppend(cfg, env, ps, qs');
    }
  }

  /** Each fired pass makes exactly one write, no pass makes more, and the
      k-th write carries the label and instant `nextTime` gave the k-th fired
      pass: a failed write is neither retried nor repeated. */
  lemma {:induction false} WritesFollowFiredPasses(cfg: Config, env: Collaborators, ps: seq<Pass>)
    ensures |RunWrites(cfg, env, ps)| == |Fired(ps)|
    ensures forall k :: 0 <= k < |Fired(ps)| ==>
              RunWrites(cfg, env, ps)[k].text == EventOf(cfg, env, Fired(ps)[k]).text &&
              RunWrites(cfg, env, ps)[k].t == EventOf(cfg, env, Fired(ps)[k]).at
    decreases |ps|
  {
    if ps != [] {
      WritesFollowFiredPasses(cfg, env, ps[..|ps| - 1]);
    }
  }

  /** The error recorded with each write is exactly what `addAnnotation`
      returned for that pass's event and network. */
  lemma {:induction false} WriteErrorsFromAddAnnotation(cfg: Config, env: Collaborators, ps: seq<Pass>)
    ensures |RunWrites(cfg, env, ps)| == |Fired(ps)|
    ensures forall k :: 0 <= k < |Fired(ps)| ==>
              var p := Fired(ps)[k];
              var e := EventOf(cfg, env, p);
              RunWrites(cfg, env, ps)[k].error ==
                AddAnnotation(cfg.addr, cfg.username, cfg.password, e.text, e.at, env.lib, p.wake.send)
    decreases |ps|
  {
    if ps != [] {
      WriteErrorsFromAddAnnotation(cfg, env, ps[..|ps| - 1]);
    }
  }

  /** A signal performs no write and does not end the loop: the passes after
      it write exactly what they would have written without it. */
  lemma SignalDoesNotStop(cfg: Config, env: Collaborators, ps: seq<Pass>, now: Instant, qs: seq<Pass>)
    ensures RunWrites(cfg, env, ps + [Pass(now, SignalReceived)] + qs) ==
            RunWrites(cfg, env, ps) + RunWrites(cfg, env, qs)
  {
    RunWritesAppend(cfg, env, ps + [Pass(now, SignalReceived)], qs);
    RunWritesAppend(cfg, env, ps, [Pass(now, SignalReceived)]);
  }

  /** A write error affects nothing but the log: replacing the network of any
      pass leaves every label and instant written unchanged, and changes the
      number of writes not at all. */
  lemma {:induction false} NetworkDoesNotSteer(cfg: Config, env: Collaborators, ps: seq<Pass>, qs: seq<Pass>)
    requires |ps| == |qs|
    requires forall i :: 0 <= i < |ps| ==> ps[i].now == qs[i].now && ps[i].wake.TimerFired? == qs[i].wake.TimerFired?
    ensures |RunWrites(cfg, env, ps)| == |RunWrites(cfg, env, qs)|
    ensures forall k :: 0 <= k < |RunWrites(cfg, env, ps)| ==>
              RunWrites(cfg, env, ps)[k].text == RunWrites(cfg, env, qs)[k].text &&
              RunWrites(cfg, env, ps)[k].t == RunWrites(cfg, env, qs)[k].t
    decreases |ps|
  {
    if ps != [] {
      var n := |ps| - 1;
      NetworkDoesNotSteer(cfg, env, ps[..n], qs[..n]);
      assert EventOf(cfg, env, ps[n]) == EventOf(cfg, env, qs[n]);
    }
  }
}
