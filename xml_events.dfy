/** The XML writer seen as a stream of events, and the rules a well-formed
    writer enforces on that stream.

    `Step` is the writer's state machine: it says which call is legal in
    which state and what state follows. `Run` folds it over a sequence of
    events; a sequence is legal from a state exactly when `Run` returns
    `Some`. Attribute values stay abstract (`Value`), so no number is ever
    converted to text. */
module XmlEvents {

  datatype Option<T> = None | Some(value: T)

  /** An attribute value: a string, or an integer rendered by `ToString()`. */
  datatype Value = Str(s: string) | Num(n: int)

  datatype Event =
    | StartDoc(standalone: bool)          // WriteStartDocument(standalone)
    | StartEl(name: string)               // WriteStartElement(name)
    | Attr(name: string, value: Value)    // WriteAttributeString(name, value)
    | EndEl                               // WriteEndElement()
    | EndDoc                              // WriteEndDocument()
    | Flush                               // Flush()
    | Close                               // Close() or Dispose()

  /** Events that may occur inside element content (what a node writes). */
  predicate IsContent(e: Event) {
    e.StartEl? || e.Attr? || e.EndEl?
  }

  predicate AllContent(s: seq<Event>) {
    forall i | 0 <= i < |s| :: IsContent(s[i])
  }

  predicate AllAttrs(s: seq<Event>) {
    forall i | 0 <= i < |s| :: s[i].Attr?
  }

  /** Initial: nothing written yet; Started: the document or its root element
      has begun; Ended: WriteEndDocument was called; Closed: the writer is closed. */
  datatype Phase = Initial | Started | Ended | Closed

  /** `open` is the stack of open elements, innermost last; `inTag` holds
      while the start tag of the innermost element is still open, that is,
      while attributes may still be added to it. */
  datatype WriterState = WriterState(phase: Phase, open: seq<string>, inTag: bool)

  const Fresh := WriterState(Initial, [], false)

  /** The content state at the top level of a document: root level, no start tag open. */
  const TopLevel := WriterState(Started, [], false)

  /** One writer call: `None` when the writer would refuse it. */
  function Step(st: WriterState, e: Event): Option<WriterState> {
    match e
    case StartDoc(_) =>
      if st.phase == Initial then Some(st.(phase := Started)) else None
    case StartEl(n) =>
      if st.phase == Initial || st.phase == Started
      then Some(WriterState(Started, st.open + [n], true)) else None
    case Attr(_, _) =>
      if st.phase == Started && st.inTag then Some(st) else None
    case EndEl =>
      if st.phase == Started && st.open != []
      then Some(WriterState(Started, st.open[..|st.open| - 1], false)) else None
    case EndDoc =>
      if st.phase == Started && st.open == [] then Some(WriterState(Ended, [], false)) else None
    case Flush =>
      if st.phase != Closed then Some(st) else None
    case Close =>
      if st.phase != Closed && st.open == [] then Some(WriterState(Closed, [], false)) else None
  }

  /** The state after writing all of `s` from `st`, or `None` if some call is refused. */
  function Run(st: WriterState, s: seq<Event>): Option<WriterState>
    decreases |s|
  {
    if s == [] then Some(st)
    else match Step(st, s[0])
      case None => None
      case Some(st') => Run(st', s[1..])
  }

  function Then(o: Option<WriterState>, s: seq<Event>): Option<WriterState> {
    match o
    case None => None
    case Some(st) => Run(st, s)
  }

  /** What `XmlNode.WriteTo` may hand to the writer: content only, every
      element closed again, no attribute outside a start tag. */
  predicate Balanced(t: seq<Event>) {
    AllContent(t) && Run(TopLevel, t) == Some(TopLevel)
  }

  /** `s` holds the attribute `n` = `v`, and every attribute named `n` in
      `s` has the value `v`. */
  predicate Carries(s: seq<Event>, n: string, v: Value) {
    && Attr(n, v) in s
    && forall i | 0 <= i < |s| && s[i].Attr? && s[i].name == n :: s[i].value == v
  }

  /** The names of a run of attribute events, in order. */
  function AttrNames(s: seq<Event>): seq<string>
    requires AllAttrs(s)
  {
    seq(|s|, i requires 0 <= i < |s| && s[i].Attr? => s[i].name)
  }

  predicate Distinct(names: seq<string>) {
    forall i, j | 0 <= i < j < |names| :: names[i] != names[j]
  }

  /** When no name repeats, an attribute in `s` is the only one of its name. */
  lemma DistinctCarries(s: seq<Event>, n: string, v: Value)
    requires AllAttrs(s) && Distinct(AttrNames(s)) && Attr(n, v) in s
    ensures Carries(s, n, v)
  {
    var k :| 0 <= k < |s| && s[k] == Attr(n, v);
    forall i | 0 <= i < |s| && s[i].Attr? && s[i].name == n
      ensures s[i].value == v
    {
      assert AttrNames(s)[i] == AttrNames(s)[k];
    }
  }

  lemma AttrNamesConcat(a: seq<Event>, b: seq<Event>)
    requires AllAttrs(a) && AllAttrs(b)
    ensures AllAttrs(a + b) && AttrNames(a + b) == AttrNames(a) + AttrNames(b)
  {
    assert forall i | 0 <= i < |a + b| :: (a + b)[i] == if i < |a| then a[i] else b[i - |a|];
  }

  /** Writing `a + b` is writing `a`, then `b` from where `a` left off. */
  lemma {:induction false} RunConcat(st: WriterState, a: seq<Event>, b: seq<Event>)
    ensures Run(st, a + b) == Then(Run(st, a), b)
    decreases |a|
  {
    if a == [] {
      assert a + b == b;
    } else {
      assert (a + b)[0] == a[0];
      assert (a + b)[1..] == a[1..] + b;
      match Step(st, a[0])
      case None =>
      case Some(st') => RunConcat(st', a[1..], b);
    }
  }

  lemma RunSnoc(st: WriterState, s: seq<Event>, e: Event)
    ensures Run(st, s + [e]) == match Run(st, s) case None => None case Some(x) => Step(x, e)
  {
    RunConcat(st, s, [e]);
    assert [e][1..] == [];
    match Run(st, s) {
      case None =>
      case Some(x) => assert Run(x, [e]) == Step(x, e);
    }
  }

  /** Attributes leave the state unchanged while a start tag is open. */
  lemma {:induction false} RunAttrs(st: WriterState, s: seq<Event>)
    requires st.phase == Started && st.inTag && AllAttrs(s)
    ensures Run(st, s) == Some(st)
    decreases |s|
  {
    if s != [] {
      assert s[0].Attr?;
      assert AllAttrs(s[1..]) by {
        forall i | 0 <= i < |s[1..]| ensures s[1..][i].Attr? { assert s[1..][i] == s[i + 1]; }
      }
      RunAttrs(st, s[1..]);
    }
  }

  /** Content does not look below the elements it opens itself: whatever it
      does on the stack `q` it does on `p + q`. */
  lemma {:induction false} RunShift(ph: Phase, p: seq<string>, q: seq<string>, tg: bool, t: seq<Event>)
    requires AllContent(t) && Run(WriterState(ph, q, tg), t).Some?
    ensures var r := Run(WriterState(ph, q, tg), t).value;
            Run(WriterState(ph, p + q, tg), t) == Some(WriterState(r.phase, p + r.open, r.inTag))
    decreases |t|
  {
    if t != [] {
      var st := WriterState(ph, q, tg);
      assert IsContent(t[0]);
      var s1 := Step(st, t[0]).value;
      match t[0] {
        case StartEl(n) =>
          assert (p + q) + [n] == p + (q + [n]);
        case Attr(_, _) =>
        case EndEl =>
          assert (p + q)[..|p + q| - 1] == p + q[..|q| - 1];
      }
      assert Step(WriterState(ph, p + q, tg), t[0]) == Some(WriterState(s1.phase, p + s1.open, s1.inTag));
      assert AllContent(t[1..]) by {
        forall i | 0 <= i < |t[1..]| ensures IsContent(t[1..][i]) { assert t[1..][i] == t[i + 1]; }
      }
      RunShift(s1.phase, p, s1.open, s1.inTag, t[1..]);
    }
  }

  /** A balanced, non-empty subtree written below the stack `p` (at the top of
      a fresh document or inside open elements) leaves `p` as it was and the
      last start tag shut. */
  lemma BalancedRun(ph: Phase, p: seq<string>, tg: bool, t: seq<Event>)
    requires Balanced(t) && t != [] && (ph == Initial || ph == Started)
    ensures Run(WriterState(ph, p, tg), t) == Some(WriterState(Started, p, false))
  {
    assert t[0].StartEl?;
    var n := t[0].name;
    assert [] + [n] == [n];
    assert Run(WriterState(Started, [n], true), t[1..]) == Some(TopLevel);
    assert AllContent(t[1..]) by {
      forall i | 0 <= i < |t[1..]| ensures IsContent(t[1..][i]) { assert t[1..][i] == t[i + 1]; }
    }
    RunShift(Started, p, [n], true, t[1..]);
    assert p + [] == p;
  }
}
