/** The module-level database session (model/__init__.py): the `binding`
    context manager sets one global slot for the duration of a block and
    `get_session` reads it. Blocks are modelled as a small statement
    language so nesting and raising bodies can be stated. */
module SessionBinding {

  import opened Py

  /** An ORM session; only its identity matters here. A session object is
      always truthy. */
  datatype Session = Session(id: nat)

  const OutsideRequest: Exc := RuntimeError("Attempted session access outside of request")

  /** What a block does with the session slot. */
  datatype Stmt =
    | Skip
    | GetSession                     // `get_session()`
    | Raise(exc: Exc)                // the block raises
    | Then(first: Stmt, next: Stmt)  // one statement after another
    | Binding(session: Session, body: Stmt)  // `with binding(session): body`

  /** The slot after a run, the sessions `get_session` returned in order,
      and the exception that escaped, if any. */
  datatype Run = Run(slot: Option<Session>, seen: seq<Session>, raised: Option<Exc>)

  /** `get_session()` on the current slot. */
  function Get(slot: Option<Session>): (r: Result<Session>)
    ensures slot.None? ==> r == Failure(OutsideRequest)
    ensures slot.Some? ==> r == Success(slot.value)
  {
    if slot.None? then Failure(OutsideRequest) else Success(slot.value)
  }

  /** Running a block from a slot. `binding` stores its session, runs the
      body and, only when the body returns normally, clears the slot to
      `None`; an exception from the body skips the clearing. */
  function Exec(s: Stmt, slot: Option<Session>): (r: Run)
    ensures s.Skip? ==> r == Run(slot, [], None)
    ensures s.Raise? ==> r == Run(slot, [], Some(s.exc))
    ensures s.Binding? && r.raised.None? ==> r.slot == None
  {
    match s
    case Skip => Run(slot, [], None)
    case GetSession =>
      (match Get(slot)
       case Success(v) => Run(slot, [v], None)
       case Failure(e) => Run(slot, [], Some(e)))
    case Raise(e) => Run(slot, [], Some(e))
    case Then(a, b) =>
      var ra := Exec(a, slot);
      if ra.raised.Some? then ra
      else
        var rb := Exec(b, ra.slot);
        Run(rb.slot, ra.seen + rb.seen, rb.raised)
    case Binding(sess, body) =>
      var rb := Exec(body, Some(sess));
      if rb.raised.Some? then rb else rb.(slot := None)
  }

  /** A block that does not open a binding of its own. */
  predicate Flat(s: Stmt) {
    match s
    case Then(a, b) => Flat(a) && Flat(b)
    case Binding(_, _) => false
    case _ => true
  }

  /** With `s` bound, a flat block sees `s` at every `get_session` and
      leaves the slot alone. */
  lemma {:induction false} FlatSeesBound(body: Stmt, s: Session)
    requires Flat(body)
    ensures Exec(body, Some(s)).slot == Some(s)
    ensures forall i :: 0 <= i < |Exec(body, Some(s)).seen| ==> Exec(body, Some(s)).seen[i] == s
  {
    match body
    case Then(a, b) =>
      FlatSeesBound(a, s);
      if Exec(a, Some(s)).raised.None? {
        FlatSeesBound(b, s);
      }
    case _ =>
  }

  /** Inside `binding(s)`, `get_session()` returns `s`; a normal exit then
      leaves nothing bound, whatever was bound before. */
  lemma InsideBindingSeesSession(s: Session, body: Stmt, before: Option<Session>)
    requires Flat(body)
    ensures forall i :: 0 <= i < |Exec(Binding(s, body), before).seen| ==> Exec(Binding(s, body), before).seen[i] == s
    ensures Exec(Binding(s, body), before).raised.None? ==> Exec(Binding(s, body), before).slot == None
  {
    FlatSeesBound(body, s);
  }

  /** `get_session()` with nothing bound raises RuntimeError. */
  lemma UnboundRaises(slot: Option<Session>)
    ensures Exec(GetSession, None) == Run(None, [], Some(OutsideRequest))
    ensures slot.Some? ==> Exec(GetSession, slot) == Run(slot, [slot.value], None)
  {
  }

  /** The exit of an inner binding clears the slot instead of restoring
      the outer session, so the outer block's next `get_session` raises. */
  lemma NestedBindingUnbindsOuter(outer: Session, inner: Session, before: Option<Session>)
    ensures Exec(Binding(outer, Then(Binding(inner, Skip), GetSession)), before)
            == Run(None, [], Some(OutsideRequest))
  {
    assert Exec(Binding(inner, Skip), Some(outer)) == Run(None, [], None);
    assert Exec(GetSession, None) == Run(None, [], Some(OutsideRequest));
    var none: seq<Session> := [];
    assert none + none == none;
  }

  /** A body that raises skips the clearing: the exception escapes and the
      session stays bound. */
  lemma RaisingBodyStaysBound(s: Session, body: Stmt, before: Option<Session>)
    requires Flat(body)
    requires Exec(body, Some(s)).raised.Some?
    ensures Exec(Binding(s, body), before).raised == Exec(body, Some(s)).raised
    ensures Exec(Binding(s, body), before).slot == Some(s)
  {
    FlatSeesBound(body, s);
  }
}
