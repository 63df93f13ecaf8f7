/** The two library objects the output writer talks to: the caller's
    `TextWriter` and the `XmlWriter` that `XmlWriter.Create` puts over it.
    The text is kept as the events it was rendered from; indentation,
    escaping and encoding are not modelled. */
module XmlWriterModel {
  import opened XmlEvents

  /** A character sink. `text` is everything it has received. */
  class TextWriter {
    var text: seq<Event>

    constructor ()
      ensures text == []
    {
      text := [];
    }
  }

  /** EndEls(n) is n end-element events. */
  function EndEls(n: nat): (s: seq<Event>)
    ensures |s| == n && forall i | 0 <= i < n :: s[i] == EndEl
  {
    seq(n, _ => EndEl)
  }

  /** Proof helper (associativity of `+`), used to regroup what a run of
      writer calls appended. */
  lemma AppendAssoc(a: seq<Event>, b: seq<Event>, c: seq<Event>)
    ensures a + b + c == a + (b + c)
  {
  }

  /** A well-formed XML writer over `output`. Each call appends its event to
      `output.text`; the calls it accepts are those `Step` accepts. */
  class XmlWriter {
    const output: TextWriter
    ghost const prior: seq<Event>    // what `output` held when the writer was created
    ghost var written: seq<Event>    // every event this writer has sent to `output`
    var phase: Phase
    var open: seq<string>
    var inTag: bool

    function State(): WriterState
      reads this
    {
      WriterState(phase, open, inTag)
    }

    ghost predicate Valid()
      reads this, output
    {
      && output.text == prior + written
      && Run(Fresh, written) == Some(State())
      && (phase != Started ==> open == [] && !inTag)
    }

    /** XmlWriter.Create(output, settings) */
    constructor Create(output: TextWriter)
      ensures Valid() && State() == Fresh
      ensures this.output == output && written == [] && prior == output.text
    {
      this.output := output;
      prior := output.text;
      written := [];
      phase, open, inTag := Initial, [], false;
    }

    method WriteStartDocument(standalone: bool)
      requires Valid() && phase == Initial
      modifies this, output
      ensures Valid()
      ensures output.text == old(output.text) + [StartDoc(standalone)]
      ensures State() == old(State()).(phase := Started)
    {
      RunSnoc(Fresh, written, StartDoc(standalone));
      output.text := output.text + [StartDoc(standalone)];
      written := written + [StartDoc(standalone)];
      phase := Started;
    }

    method WriteStartElement(name: string)
      requires Valid() && (phase == Initial || phase == Started)
      modifies this, output
      ensures Valid()
      ensures output.text == old(output.text) + [StartEl(name)]
      ensures State() == WriterState(Started, old(open) + [name], true)
    {
      RunSnoc(Fresh, written, StartEl(name));
      output.text := output.text + [StartEl(name)];
      written := written + [StartEl(name)];
      phase, open, inTag := Started, open + [name], true;
    }

    /** Only inside a start tag: after WriteStartElement and before any content. */
    method WriteAttributeString(name: string, value: Value)
      requires Valid() && phase == Started && inTag
      modifies this, output
      ensures Valid()
      ensures output.text == old(output.text) + [Attr(name, value)]
      ensures State() == old(State())
    {
      RunSnoc(Fresh, written, Attr(name, value));
      output.text := output.text + [Attr(name, value)];
      written := written + [Attr(name, value)];
    }

    method WriteEndElement()
      requires Valid() && phase == Started && open != []
      modifies this, output
      ensures Valid()
      ensures output.text == old(output.text) + [EndEl]
      ensures State() == WriterState(Started, old(open)[..|old(open)| - 1], false)
    {
      RunSnoc(Fresh, written, EndEl);
      output.text := output.text + [EndEl];
      written := written + [EndEl];
      open, inTag := open[..|open| - 1], false;
    }

    /** Closes every element still open, then ends the document. */
    method WriteEndDocument()
      requires Valid() && phase == Started
      modifies this, output
      ensures Valid()
      ensures output.text == old(output.text) + EndEls(|old(open)|) + [EndDoc]
      ensures State() == WriterState(Ended, [], false)
    {
      while open != []
        invariant Valid() && phase == Started && |open| <= |old(open)|
        invariant output.text == old(output.text) + EndEls(|old(open)| - |open|)
        decreases |open|
      {
        ghost var k := |old(open)| - |open|;
        WriteEndElement();
        assert EndEls(k + 1) == EndEls(k) + [EndEl];
      }
      RunSnoc(Fresh, written, EndDoc);
      output.text := output.text + [EndDoc];
      written := written + [EndDoc];
      phase, inTag := Ended, false;
    }

    method Flush()
      requires Valid() && phase != Closed
      modifies this, output
      ensures Valid()
      ensures output.text == old(output.text) + [Event.Flush]
      ensures State() == old(State())
    {
      RunSnoc(Fresh, written, Event.Flush);
      output.text := output.text + [Event.Flush];
      written := written + [Event.Flush];
    }

    /** Closes every element still open and then the writer; a writer that
        is already closed ignores the call (so Dispose after Close writes nothing). */
    method Close()
      requires Valid()
      modifies this, output
      ensures Valid() && State() == WriterState(Closed, [], false)
      ensures output.text == old(output.text) +
                (if old(phase) == Closed then [] else EndEls(|old(open)|) + [Event.Close])
    {
      if phase != Closed {
        while open != []
          invariant Valid() && phase != Closed && |open| <= |old(open)|
          invariant output.text == old(output.text) + EndEls(|old(open)| - |open|)
          decreases |open|
        {
          ghost var k := |old(open)| - |open|;
          WriteEndElement();
          assert EndEls(k + 1) == EndEls(k) + [EndEl];
        }
        RunSnoc(Fresh, written, Event.Close);
        output.text := output.text + [Event.Close];
        written := written + [Event.Close];
        phase, inTag := Closed, false;
      }
    }

    /** XmlNode.WriteTo(writer): the node replays its own balanced subtree. */
    method WriteNode(t: seq<Event>)
      requires Valid() && Balanced(t) && (phase == Initial || phase == Started)
      modifies this, output
      ensures Valid()
      ensures output.text == old(output.text) + t
      ensures State() == if t == [] then old(State()) else WriterState(Started, old(open), false)
    {
      if t != [] {
        RunConcat(Fresh, written, t);
        BalancedRun(phase, open, inTag, t);
        output.text := output.text + t;
        written := written + t;
        phase, inTag := Started, false;
      }
    }
  }
}
