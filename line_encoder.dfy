/**
 * The line-oriented sink the formatter writes to (the host's LineEncoder),
 * seen only through the calls made on it: the text and line breaks it is
 * given, and the file lifecycle around them. Charset, newline style,
 * compression and file rotation belong to the sink and are not modelled.
 */
module LineEncoding {

  import opened Wrappers

  /** One call made on the encoder. */
  datatype Call = NextFile | AddText(text: string) | AddNewLine | Finish | Close

  /** Where the encoder is in its lifecycle. */
  datatype Phase = Idle | Opened | Finished | Closed

  /** A call that writes to the current file. */
  predicate IsWrite(c: Call) {
    c.AddText? || c.AddNewLine?
  }

  /** The lifecycle: the phase a call leads to, or `None` where the call is not allowed. */
  function Step(p: Phase, c: Call): Option<Phase> {
    match c
    case NextFile => if p == Idle then Some(Opened) else None
    case AddText(_) => if p == Opened then Some(Opened) else None
    case AddNewLine => if p == Opened then Some(Opened) else None
    case Finish => if p == Opened then Some(Finished) else None
    case Close => if p != Closed then Some(Closed) else None
  }

  /** The phase a fresh encoder reaches through `log`, or `None` if some call was out of order. */
  function Replay(log: seq<Call>): Option<Phase> {
    if log == [] then Some(Idle)
    else match Replay(log[..|log| - 1])
      case None => None
      case Some(p) => Step(p, log[|log| - 1])
  }

  /**
   * Every call sequence the lifecycle accepts writes only after the one
   * NextFile that starts it, never writes after Finish or Close, and ends
   * with Close if it closes at all.
   */
  lemma {:induction false} ReplayOrder(log: seq<Call>)
    requires Replay(log).Some?
    ensures Replay(log) == Some(Idle) ==> log == []
    ensures Replay(log) == Some(Opened) ==> |log| > 0 && log[0].NextFile?
    ensures Replay(log).value in {Idle, Opened} ==> forall i :: 0 <= i < |log| ==> !log[i].Finish? && !log[i].Close?
    ensures Replay(log) == Some(Finished) ==> forall i :: 0 <= i < |log| ==> !log[i].Close?
    ensures forall i :: 0 <= i < |log| && log[i].NextFile? ==> i == 0
    ensures forall i :: 0 <= i < |log| && IsWrite(log[i]) ==> i > 0 && log[0].NextFile?
    ensures forall i, j :: 0 <= i < j < |log| && IsWrite(log[j]) ==> !log[i].Finish? && !log[i].Close?
    ensures forall i :: 0 <= i < |log| && log[i].Close? ==> i == |log| - 1
  {
    if log != [] {
      var pre := log[..|log| - 1];
      ReplayOrder(pre);
      assert forall i :: 0 <= i < |pre| ==> log[i] == pre[i];
      if pre == [] {
        assert log == [log[0]];
      }
    }
  }

  /**
   * The lines a call sequence writes: the text added between two line
   * breaks, in order; `acc` is the text of the line not yet ended.
   */
  function Lines(log: seq<Call>, acc: string): seq<string> {
    if log == [] then []
    else match log[0]
      case AddText(t) => Lines(log[1..], acc + t)
      case AddNewLine => [acc] + Lines(log[1..], "")
      case _ => Lines(log[1..], acc)
  }

  /** The host's LineEncoder: it records the calls made on it and keeps its lifecycle phase. */
  class LineEncoder {
    var phase: Phase
    var log: seq<Call>

    ghost predicate Valid()
      reads this
    {
      Replay(log) == Some(phase)
    }

    constructor ()
      ensures Valid() && phase == Idle && log == []
    {
      phase := Idle;
      log := [];
    }

    /** Opens the file that the following text goes to. */
    method NextFile()
      requires Valid() && phase == Idle
      modifies this
      ensures Valid() && phase == Opened && log == old(log) + [Call.NextFile]
    {
      log := log + [Call.NextFile];
      assert log[..|log| - 1] == old(log);
      phase := Opened;
    }

    method AddText(text: string)
      requires Valid() && phase == Opened
      modifies this
      ensures Valid() && phase == Opened && log == old(log) + [Call.AddText(text)]
    {
      log := log + [Call.AddText(text)];
      assert log[..|log| - 1] == old(log);
    }

    method AddNewLine()
      requires Valid() && phase == Opened
      modifies this
      ensures Valid() && phase == Opened && log == old(log) + [Call.AddNewLine]
    {
      log := log + [Call.AddNewLine];
      assert log[..|log| - 1] == old(log);
    }

    /** Flushes and finishes the current file. */
    method Finish()
      requires Valid() && phase == Opened
      modifies this
      ensures Valid() && phase == Finished && log == old(log) + [Call.Finish]
    {
      log := log + [Call.Finish];
      assert log[..|log| - 1] == old(log);
      phase := Finished;
    }

    /** Releases the underlying output, whether or not the file was finished. */
    method Close()
      requires Valid() && phase != Closed
      modifies this
      ensures Valid() && phase == Closed && log == old(log) + [Call.Close]
    {
      log := log + [Call.Close];
      assert log[..|log| - 1] == old(log);
      phase := Closed;
    }
  }
}
