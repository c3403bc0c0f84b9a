/**
 * The dispatcher that the teacher and student routers are included in. An
 * update is offered to the routers in the order they were included; the
 * first whose gate and handler filters accept it handles it, and the others
 * never see it. Every router reads and writes the same FSM context of the
 * sender. Updates of one user are processed one after the other; an update
 * whose handler raises leaves the session as the handler left it and the
 * next update is processed as usual.
 */
module Dispatcher {
  import opened Wrappers
  import opened Models
  import opened Fsm
  import opened Events
  import TeacherHandlers
  import StudentHandlers
  import TeacherProperties
  import StudentProperties

  datatype RouterKind = TeacherRouter | StudentRouter

  /** One router offered an update; a router that does not handle it leaves the session alone. */
  function RouterStep(k: RouterKind, st: State, d: Fields, ev: Event, env: Env): (o: Outcome)
    ensures !o.handled ==> o == Unhandled(st, d)
  {
    match k
    case TeacherRouter => TeacherHandlers.TeacherStep(st, d, ev, env)
    case StudentRouter => StudentHandlers.StudentStep(st, d, ev, env)
  }

  /**
   * An update offered to `routers` in inclusion order. When no router
   * handles it nothing happens and the session is as it was.
   */
  function Propagate(routers: seq<RouterKind>, st: State, d: Fields, ev: Event, env: Env): (o: Outcome)
    ensures !o.handled ==> o == Unhandled(st, d)
  {
    if |routers| == 0 then Unhandled(st, d)
    else
      var o := RouterStep(routers[0], st, d, ev, env);
      if o.handled then o else Propagate(routers[1..], st, d, ev, env)
  }

  /** A handled update was handled by one of the routers, exactly as that router alone would. */
  lemma {:induction false} HandledBySomeRouter(routers: seq<RouterKind>, st: State, d: Fields, ev: Event, env: Env)
    requires Propagate(routers, st, d, ev, env).handled
    ensures exists k :: k in routers && RouterStep(k, st, d, ev, env) == Propagate(routers, st, d, ev, env)
  {
    if !RouterStep(routers[0], st, d, ev, env).handled {
      HandledBySomeRouter(routers[1..], st, d, ev, env);
      var k :| k in routers[1..] && RouterStep(k, st, d, ev, env) == Propagate(routers[1..], st, d, ev, env);
      assert k in routers;
    }
  }

  /** The session after a run of updates, and everything the handlers did, in order. */
  datatype Trace = Trace(state: State, data: Fields, actions: seq<Action>)

  function Run(routers: seq<RouterKind>, st: State, d: Fields, evs: seq<Event>, env: Env): Trace
    decreases |evs|
  {
    if |evs| == 0 then Trace(st, d, [])
    else
      var o := Propagate(routers, st, d, evs[0], env);
      var rest := Run(routers, o.state, o.data, evs[1..], env);
      Trace(rest.state, rest.data, o.actions + rest.actions)
  }

  /** Every router keeps the session invariant. */
  lemma RouterStepPreservesInvariant(k: RouterKind, st: State, d: Fields, ev: Event, env: Env)
    requires SessionInvariant(st, d)
    ensures var o := RouterStep(k, st, d, ev, env); SessionInvariant(o.state, o.data)
  {
    match k
    case TeacherRouter => TeacherProperties.StepPreservesInvariant(st, d, ev, env);
    case StudentRouter => StudentProperties.StepPreservesInvariant(st, d, ev, env);
  }

  /** Whatever the routers and their order, a run of updates keeps the session invariant. */
  lemma {:induction false} RunPreservesInvariant(routers: seq<RouterKind>, st: State, d: Fields, evs: seq<Event>, env: Env)
    requires SessionInvariant(st, d)
    ensures var t := Run(routers, st, d, evs, env); SessionInvariant(t.state, t.data)
    decreases |evs|
  {
    if |evs| > 0 {
      var o := Propagate(routers, st, d, evs[0], env);
      if o.handled {
        HandledBySomeRouter(routers, st, d, evs[0], env);
        var k :| k in routers && RouterStep(k, st, d, evs[0], env) == o;
        RouterStepPreservesInvariant(k, st, d, evs[0], env);
      }
      RunPreservesInvariant(routers, o.state, o.data, evs[1..], env);
    }
  }

  /** A user who is neither a teacher nor a student is handled by no router and keeps the session. */
  lemma {:induction false} StrangerUnhandled(routers: seq<RouterKind>, st: State, d: Fields, ev: Event, env: Env)
    requires env.teacherOf(Sender(ev)).None? && env.studentOf(Sender(ev)).None?
    ensures Propagate(routers, st, d, ev, env) == Unhandled(st, d)
  {
    if |routers| > 0 {
      StrangerUnhandled(routers[1..], st, d, ev, env);
    }
  }

  lemma GateStudentRejects(st: State, d: Fields, ev: Event, env: Env)
    requires env.studentOf(Sender(ev)).None?
    ensures RouterStep(StudentRouter, st, d, ev, env) == Unhandled(st, d)
  {
    StudentProperties.GateRejects(st, d, ev, env);
  }

  lemma GateTeacherRejects(st: State, d: Fields, ev: Event, env: Env)
    requires env.teacherOf(Sender(ev)).None?
    ensures RouterStep(TeacherRouter, st, d, ev, env) == Unhandled(st, d)
  {
    TeacherProperties.GateRejects(st, d, ev, env);
  }

  /** When every other router leaves an update alone, the routers together act as router `k` alone. */
  lemma {:induction false} SoleRouter(routers: seq<RouterKind>, k: RouterKind, st: State, d: Fields, ev: Event, env: Env)
    requires k in routers
    requires forall j :: j in routers && j != k ==> RouterStep(j, st, d, ev, env) == Unhandled(st, d)
    ensures Propagate(routers, st, d, ev, env) == RouterStep(k, st, d, ev, env)
  {
    var o := RouterStep(k, st, d, ev, env);
    assert forall j :: j in routers[1..] ==> j in routers;
    if routers[0] != k {
      SoleRouter(routers[1..], k, st, d, ev, env);
    } else if !o.handled {
      if k in routers[1..] {
        SoleRouter(routers[1..], k, st, d, ev, env);
      } else {
        NoRouterAnswers(routers[1..], st, d, ev, env);
      }
    }
  }

  /** Routers that all leave an update alone leave it unhandled together. */
  lemma {:induction false} NoRouterAnswers(routers: seq<RouterKind>, st: State, d: Fields, ev: Event, env: Env)
    requires forall j :: j in routers ==> RouterStep(j, st, d, ev, env) == Unhandled(st, d)
    ensures Propagate(routers, st, d, ev, env) == Unhandled(st, d)
  {
    if |routers| > 0 {
      assert routers[0] in routers;
      assert forall j :: j in routers[1..] ==> j in routers;
      NoRouterAnswers(routers[1..], st, d, ev, env);
    }
  }

  /** For a teacher who is no student, the routers together act as the teacher router alone. */
  lemma TeacherOnly(routers: seq<RouterKind>, st: State, d: Fields, ev: Event, env: Env)
    requires env.studentOf(Sender(ev)).None? && TeacherRouter in routers
    ensures Propagate(routers, st, d, ev, env) == TeacherHandlers.TeacherStep(st, d, ev, env)
  {
    GateStudentRejects(st, d, ev, env);
    SoleRouter(routers, TeacherRouter, st, d, ev, env);
  }

  /** For a student who is no teacher, the routers together act as the student router alone. */
  lemma StudentOnly(routers: seq<RouterKind>, st: State, d: Fields, ev: Event, env: Env)
    requires env.teacherOf(Sender(ev)).None? && StudentRouter in routers
    ensures Propagate(routers, st, d, ev, env) == StudentHandlers.StudentStep(st, d, ev, env)
  {
    GateTeacherRejects(st, d, ev, env);
    SoleRouter(routers, StudentRouter, st, d, ev, env);
  }
}
