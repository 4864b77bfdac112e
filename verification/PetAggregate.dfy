/** The pet's aggregate of many connections: an incremental fold, and what it means in terms of the
    events themselves. */
module PetAggregate {

  type Conn = string

  datatype Status = Connecting | Connected | Prompting | Erring | Disconnected

  datatype Payload =
    | StatusChanged(status: Status)
    | Error
    | PermissionRequest(request: string)
    | PermissionResolved(request: string)
    | TurnComplete
    | DelegationStarted(child: Conn)
    | DelegationCompleted(child: Conn)
    | Other

  /** An event of a connection, a bus overrun, or the recovery timer clearing the failed state. */
  datatype Event = Acp(conn: Conn, payload: Payload) | Overrun | ClearErrors

  datatype Snapshot = Snapshot(prompting: set<Conn>, erroring: set<Conn>,
                               pending: map<string, Conn>, children: set<Conn>)

  const EMPTY := Snapshot({}, {}, map[], {})

  function DropOwnedBy(m: map<string, Conn>, c: Conn): map<string, Conn> { map r | r in m && m[r] != c :: m[r] }

  function ApplyChild(s: Snapshot, c: Conn, p: Payload): Snapshot {
    match p
    case PermissionRequest(r) => s.(pending := s.pending[r := c])
    case PermissionResolved(r) => s.(pending := s.pending - {r})
    case TurnComplete => s.(pending := DropOwnedBy(s.pending, c))
    case StatusChanged(status) =>
      if status.Disconnected? then s.(children := s.children - {c}, pending := DropOwnedBy(s.pending, c)) else s
    case _ => s
  }

  function ApplyRoot(s: Snapshot, c: Conn, p: Payload): Snapshot {
    match p
    case StatusChanged(status) =>
      (match status
       case Prompting => s.(prompting := s.prompting + {c}, erroring := s.erroring - {c})
       case Connected => s.(prompting := s.prompting - {c}, erroring := s.erroring - {c})
       case Connecting => s.(prompting := s.prompting - {c}, erroring := s.erroring - {c})
       case Erring => s.(prompting := s.prompting - {c}, erroring := s.erroring + {c})
       case Disconnected => s.(prompting := s.prompting - {c}, erroring := s.erroring - {c},
                               pending := DropOwnedBy(s.pending, c)))
    case Error => s.(erroring := s.erroring + {c})
    case PermissionRequest(r) => s.(pending := s.pending[r := c])
    case PermissionResolved(r) => s.(pending := s.pending - {r})
    case TurnComplete => s.(prompting := s.prompting - {c}, pending := DropOwnedBy(s.pending, c))
    case _ => s
  }

  function Apply(s: Snapshot, c: Conn, p: Payload): Snapshot {
    match p
    case DelegationStarted(child) =>
      s.(children := s.children + {child}, prompting := s.prompting - {child}, erroring := s.erroring - {child})
    case DelegationCompleted(child) =>
      s.(children := s.children - {child}, prompting := s.prompting - {child}, erroring := s.erroring - {child},
         pending := DropOwnedBy(s.pending, child))
    case _ => if c in s.children then ApplyChild(s, c, p) else ApplyRoot(s, c, p)
  }

  function Absorb(s: Snapshot, e: Event): Snapshot {
    match e
    case Acp(c, p) => Apply(s, c, p)
    case Overrun => Snapshot({}, {}, map[], s.children)
    case ClearErrors => s.(erroring := {})
  }

  function Fold(es: seq<Event>): Snapshot {
    if es == [] then EMPTY else Absorb(Fold(es[..|es|-1]), es[|es|-1])
  }

  datatype PetState = Idle | Running | Waiting | Failed

  function Compute(s: Snapshot): PetState {
    if s.erroring != {} then Failed
    else if s.pending != map[] then Waiting
    else if s.prompting != {} then Running
    else Idle
  }

  /** The object whose sets the events change in place. */
  class PetGlobalState {
    var prompting: set<Conn>
    var erroring: set<Conn>
    var pendingPermissions: map<string, Conn>
    var delegationChildren: set<Conn>

    function Abs(): Snapshot
      reads this
    { Snapshot(prompting, erroring, pendingPermissions, delegationChildren) }

    constructor ()
      ensures Abs() == EMPTY
    { prompting, erroring, pendingPermissions, delegationChildren := {}, {}, map[], {}; }

    method ApplyEvent(conn: Conn, payload: Payload)
      modifies this
      ensures Abs() == Apply(old(Abs()), conn, payload)
    {
      if payload.DelegationStarted? {
        delegationChildren := delegationChildren + {payload.child};
        prompting := prompting - {payload.child};
        erroring := erroring - {payload.child};
      } else if payload.DelegationCompleted? {
        delegationChildren := delegationChildren - {payload.child};
        prompting := prompting - {payload.child};
        erroring := erroring - {payload.child};
        RetainNotOwnedBy(payload.child);
      } else if conn in delegationChildren {
        ApplyToChild(conn, payload);
      } else {
        ApplyToRoot(conn, payload);
      }
    }

    /** A sub-agent's permissions count; its work does not. */
    method ApplyToChild(conn: Conn, payload: Payload)
      modifies this
      ensures Abs() == ApplyChild(old(Abs()), conn, payload)
    {
      match payload
      case PermissionRequest(r) => pendingPermissions := pendingPermissions[r := conn];
      case PermissionResolved(r) => pendingPermissions := pendingPermissions - {r};
      case TurnComplete => RetainNotOwnedBy(conn);
      case StatusChanged(status) =>
        if status.Disconnected? {
          delegationChildren := delegationChildren - {conn};
          RetainNotOwnedBy(conn);
        }
      case _ =>
    }

    method ApplyToRoot(conn: Conn, payload: Payload)
      modifies this
      ensures Abs() == ApplyRoot(old(Abs()), conn, payload)
    {
      match payload
      case StatusChanged(status) =>
        if status.Prompting? {
          prompting := prompting + {conn};
          erroring := erroring - {conn};
        } else if status.Erring? {
          erroring := erroring + {conn};
          prompting := prompting - {conn};
        } else {
          prompting := prompting - {conn};
          erroring := erroring - {conn};
          if status.Disconnected? { RetainNotOwnedBy(conn); }
        }
      case Error => erroring := erroring + {conn};
      case PermissionRequest(r) => pendingPermissions := pendingPermissions[r := conn];
      case PermissionResolved(r) => pendingPermissions := pendingPermissions - {r};
      case TurnComplete =>
        prompting := prompting - {conn};
        RetainNotOwnedBy(conn);
      case _ =>
    }

    method RetainNotOwnedBy(c: Conn)
      modifies this`pendingPermissions
      ensures pendingPermissions == DropOwnedBy(old(pendingPermissions), c)
    {
      pendingPermissions := map r | r in pendingPermissions && pendingPermissions[r] != c :: pendingPermissions[r];
    }

    /** What was dropped cannot be reconstructed; who is a sub-agent must not be forgotten. */
    method ResetAfterOverrun()
      modifies this
      ensures Abs() == Absorb(old(Abs()), Overrun)
    { prompting, erroring, pendingPermissions := {}, {}, map[]; }

    method ClearErroring()
      modifies this
      ensures Abs() == Absorb(old(Abs()), ClearErrors)
    { erroring := {}; }
  }

  // ---- the same four sets, from the history alone ----

  predicate EndsChild(e: Event, c: Conn) {
    e.Acp? && (e.payload == DelegationCompleted(c) || (e.conn == c && e.payload == StatusChanged(Disconnected)))
  }

  /** Announced as a sub-agent, and since then neither completed nor disconnected. */
  ghost predicate KnownChild(es: seq<Event>, c: Conn) {
    exists i :: 0 <= i < |es| && es[i].Acp? && es[i].payload == DelegationStarted(c)
                && forall j :: i < j < |es| ==> !EndsChild(es[j], c)
  }

  predicate Delegation(e: Event, c: Conn) {
    e.Acp? && (e.payload == DelegationStarted(c) || e.payload == DelegationCompleted(c))
  }

  predicate StopsPrompting(e: Event, c: Conn) {
    || e.Overrun? || Delegation(e, c)
    || (e.Acp? && e.conn == c &&
        (e.payload.TurnComplete? || (e.payload.StatusChanged? && !e.payload.status.Prompting?)))
  }

  /** Said to be prompting while no known sub-agent, and nothing has ended it since. */
  ghost predicate IsPrompting(es: seq<Event>, c: Conn) {
    exists i :: 0 <= i < |es| && es[i] == Acp(c, StatusChanged(Prompting)) && !KnownChild(es[..i], c)
                && forall j :: i < j < |es| ==> !StopsPrompting(es[j], c)
  }

  predicate StopsErroring(e: Event, c: Conn) {
    || e.Overrun? || e.ClearErrors? || Delegation(e, c)
    || (e.Acp? && e.conn == c && e.payload.StatusChanged? && !e.payload.status.Erring?)
  }

  ghost predicate IsErroring(es: seq<Event>, c: Conn) {
    exists i :: 0 <= i < |es| && (es[i] == Acp(c, Error) || es[i] == Acp(c, StatusChanged(Erring)))
                && !KnownChild(es[..i], c)
                && forall j :: i < j < |es| ==> !StopsErroring(es[j], c)
  }

  predicate SettlesPermission(e: Event, r: string, c: Conn) {
    || e.Overrun?
    || (e.Acp? &&
        (|| e.payload == PermissionRequest(r) || e.payload == PermissionResolved(r)
         || e.payload == DelegationCompleted(c)
         || (e.conn == c && (e.payload.TurnComplete? || e.payload == StatusChanged(Disconnected)))))
  }

  /** The last request for `r` came from `c` and nothing has settled it since, sub-agent or not. */
  ghost predicate IsPending(es: seq<Event>, r: string, c: Conn) {
    exists i :: 0 <= i < |es| && es[i] == Acp(c, PermissionRequest(r))
                && forall j :: i < j < |es| ==> !SettlesPermission(es[j], r, c)
  }

  lemma KnownChildSnoc(es: seq<Event>, e: Event, c: Conn)
    ensures KnownChild(es + [e], c) <==>
      (e.Acp? && e.payload == DelegationStarted(c)) || (KnownChild(es, c) && !EndsChild(e, c))
  {
    var all := es + [e];
    assert all[|es|] == e;
    if KnownChild(es, c) && !EndsChild(e, c) {
      var i :| 0 <= i < |es| && es[i].Acp? && es[i].payload == DelegationStarted(c)
               && forall j :: i < j < |es| ==> !EndsChild(es[j], c);
      assert all[i] == es[i];
    }
    if KnownChild(all, c) && !(e.Acp? && e.payload == DelegationStarted(c)) {
      var i :| 0 <= i < |all| && all[i].Acp? && all[i].payload == DelegationStarted(c)
               && forall j :: i < j < |all| ==> !EndsChild(all[j], c);
      assert i < |es| && es[i] == all[i];
      assert forall j :: i < j < |es| ==> es[j] == all[j];
    }
  }

  lemma PromptingSnoc(es: seq<Event>, e: Event, c: Conn)
    ensures IsPrompting(es + [e], c) <==>
      || (e == Acp(c, StatusChanged(Prompting)) && !KnownChild(es, c))
      || (IsPrompting(es, c) && !StopsPrompting(e, c))
  {
    var all := es + [e];
    assert all[|es|] == e && all[..|es|] == es;
    assert forall i :: 0 <= i < |es| ==> all[..i] == es[..i] && all[i] == es[i];
    if e == Acp(c, StatusChanged(Prompting)) && !KnownChild(es, c) {
      assert !KnownChild(all[..|es|], c);
    }
    if IsPrompting(es, c) && !StopsPrompting(e, c) {
      var i :| 0 <= i < |es| && es[i] == Acp(c, StatusChanged(Prompting)) && !KnownChild(es[..i], c)
               && forall j :: i < j < |es| ==> !StopsPrompting(es[j], c);
      assert !KnownChild(all[..i], c);
    }
  }

  lemma ErroringSnoc(es: seq<Event>, e: Event, c: Conn)
    ensures IsErroring(es + [e], c) <==>
      || ((e == Acp(c, Error) || e == Acp(c, StatusChanged(Erring))) && !KnownChild(es, c))
      || (IsErroring(es, c) && !StopsErroring(e, c))
  {
    var all := es + [e];
    assert all[|es|] == e && all[..|es|] == es;
    assert forall i :: 0 <= i < |es| ==> all[..i] == es[..i] && all[i] == es[i];
    if (e == Acp(c, Error) || e == Acp(c, StatusChanged(Erring))) && !KnownChild(es, c) {
      assert !KnownChild(all[..|es|], c);
    }
    if IsErroring(es, c) && !StopsErroring(e, c) {
      var i :| 0 <= i < |es| && (es[i] == Acp(c, Error) || es[i] == Acp(c, StatusChanged(Erring)))
               && !KnownChild(es[..i], c) && forall j :: i < j < |es| ==> !StopsErroring(es[j], c);
      assert !KnownChild(all[..i], c);
    }
  }

  lemma PendingSnoc(es: seq<Event>, e: Event, r: string, c: Conn)
    ensures IsPending(es + [e], r, c) <==>
      e == Acp(c, PermissionRequest(r)) || (IsPending(es, r, c) && !SettlesPermission(e, r, c))
  {
    var all := es + [e];
    assert all[|es|] == e;
    assert forall i :: 0 <= i < |es| ==> all[i] == es[i];
    if IsPending(es, r, c) && !SettlesPermission(e, r, c) {
      var i :| 0 <= i < |es| && es[i] == Acp(c, PermissionRequest(r))
               && forall j :: i < j < |es| ==> !SettlesPermission(es[j], r, c);
      assert all[i] == es[i];
    }
  }

  /** One step of the fold agrees with one step of the history. */
  lemma StepAgrees(s: Snapshot, es: seq<Event>, e: Event, c: Conn)
    requires c in s.children <==> KnownChild(es, c)
    requires c in s.prompting <==> IsPrompting(es, c)
    requires c in s.erroring <==> IsErroring(es, c)
    requires c in s.children ==> c !in s.prompting && c !in s.erroring
    ensures var s' := Absorb(s, e);
      && (c in s'.children <==> KnownChild(es + [e], c))
      && (c in s'.prompting <==> IsPrompting(es + [e], c))
      && (c in s'.erroring <==> IsErroring(es + [e], c))
      && (c in s'.children ==> c !in s'.prompting && c !in s'.erroring)
  {
    KnownChildSnoc(es, e, c);
    PromptingSnoc(es, e, c);
    ErroringSnoc(es, e, c);
  }

  lemma StepAgreesOnPermission(s: Snapshot, es: seq<Event>, e: Event, r: string)
    requires forall c :: (r in s.pending && s.pending[r] == c) <==> IsPending(es, r, c)
    ensures var s' := Absorb(s, e);
      forall c :: (r in s'.pending && s'.pending[r] == c) <==> IsPending(es + [e], r, c)
  {
    var s' := Absorb(s, e);
    forall c ensures (r in s'.pending && s'.pending[r] == c) <==> IsPending(es + [e], r, c) {
      PendingSnoc(es, e, r, c);
    }
  }

  /** Trace semantics: after any interleaving of events, overruns and recoveries, each set holds
      exactly what the history says. */
  lemma {:induction false} FoldMeansHistory(es: seq<Event>, c: Conn, r: string)
    ensures var s := Fold(es);
      && (c in s.children <==> KnownChild(es, c))
      && (c in s.prompting <==> IsPrompting(es, c))
      && (c in s.erroring <==> IsErroring(es, c))
      && ((r in s.pending && s.pending[r] == c) <==> IsPending(es, r, c))
  {
    FoldAgrees(es, c);
    FoldAgreesOnPermission(es, r);
  }

  /** A known sub-agent never makes the pet look busy or failed. */
  lemma {:induction false} FoldAgrees(es: seq<Event>, c: Conn)
    ensures var s := Fold(es);
      && (c in s.children <==> KnownChild(es, c))
      && (c in s.prompting <==> IsPrompting(es, c))
      && (c in s.erroring <==> IsErroring(es, c))
      && (c in s.children ==> c !in s.prompting && c !in s.erroring)
  {
    if es != [] {
      var front, e := es[..|es|-1], es[|es|-1];
      assert front + [e] == es;
      FoldAgrees(front, c);
      StepAgrees(Fold(front), front, e, c);
    }
  }

  lemma {:induction false} FoldAgreesOnPermission(es: seq<Event>, r: string)
    ensures forall c :: (r in Fold(es).pending && Fold(es).pending[r] == c) <==> IsPending(es, r, c)
  {
    if es != [] {
      var front, e := es[..|es|-1], es[|es|-1];
      assert front + [e] == es;
      FoldAgreesOnPermission(front, r);
      StepAgreesOnPermission(Fold(front), front, e, r);
    }
  }

  // ---- what the pet shows ----

  /** The pet's state after any history, most urgent first: failed while some connection has failed, else
      waiting while some permission is open, else running while some turn runs. */
  lemma PetShowsTheMostUrgent(es: seq<Event>)
    ensures var shown := Compute(Fold(es));
            var failed := exists c :: IsErroring(es, c);
            var waiting := exists r, c :: IsPending(es, r, c);
            var running := exists c :: IsPrompting(es, c);
      && (shown == Failed <==> failed)
      && (shown == Waiting <==> !failed && waiting)
      && (shown == Running <==> !failed && !waiting && running)
      && (shown == Idle <==> !failed && !waiting && !running)
  {
    SomeErroring(es);
    SomePending(es);
    SomePrompting(es);
  }

  lemma SomeErroring(es: seq<Event>)
    ensures Fold(es).erroring != {} <==> exists c :: IsErroring(es, c)
  {
    forall c ensures c in Fold(es).erroring <==> IsErroring(es, c) { FoldAgrees(es, c); }
    if Fold(es).erroring != {} {
      var c :| c in Fold(es).erroring;
    }
  }

  lemma SomePrompting(es: seq<Event>)
    ensures Fold(es).prompting != {} <==> exists c :: IsPrompting(es, c)
  {
    forall c ensures c in Fold(es).prompting <==> IsPrompting(es, c) { FoldAgrees(es, c); }
    if Fold(es).prompting != {} {
      var c :| c in Fold(es).prompting;
    }
  }

  lemma SomePending(es: seq<Event>)
    ensures Fold(es).pending != map[] <==> exists r, c :: IsPending(es, r, c)
  {
    if Fold(es).pending != map[] {
      var r :| r in Fold(es).pending;
      FoldAgreesOnPermission(es, r);
      assert IsPending(es, r, Fold(es).pending[r]);
    }
    if r, c :| IsPending(es, r, c) {
      FoldAgreesOnPermission(es, r);
      assert r in Fold(es).pending;
    }
  }
}
