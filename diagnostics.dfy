/**
 * `TomlErrorEmitter`: an append-only store of diagnostics against TOML files,
 * together with the `codespan_reporting` file database that the labels point
 * into. Rendering and colouring are not modelled; what is kept is the message
 * and label structure, the file ids and the order of emission.
 */
module Diagnostics {
  import opened Wrappers

  /** `ops::Range<usize>`: a byte range in a file. */
  datatype Span = Span(start: nat, end: nat)

  /** `toml::Spanned<T>`: a parsed value with the range of its text. */
  datatype Spanned<T> = Spanned(value: T, span: Span)

  /** `codespan_reporting::files::SimpleFile`. */
  datatype SimpleFile = SimpleFile(name: string, source: string)

  datatype LabelStyle = Primary | Secondary

  /** `diagnostic::Label<usize>`; `message` is `None` when `with_message` was never applied. */
  datatype Label = Label(style: LabelStyle, fileId: nat, range: Span, message: Option<string>)

  /** `diagnostic::Diagnostic<usize>` of severity `Error`. */
  datatype Diagnostic = Diagnostic(message: string, labels: seq<Label>)

  /** The files one `insert_err` call adds to the database. */
  function FilesFor(path: string, contents: string, secondaryMsg: Option<string>): (r: seq<SimpleFile>)
    ensures |r| == if secondaryMsg.Some? then 2 else 1
    ensures forall i :: 0 <= i < |r| ==> r[i] == SimpleFile(path, contents)
  {
    if secondaryMsg.Some? then [SimpleFile(path, contents), SimpleFile(path, contents)]
    else [SimpleFile(path, contents)]
  }

  /**
   * The diagnostic one `insert_err` call builds when the database held
   * `firstId` files: a primary label on the first new file and, only when a
   * secondary message is given, a secondary label on the second.
   */
  function ErrorFor(firstId: nat, message: string, primarySpan: Span, primaryMsg: Option<string>,
                    secondarySpan: Option<Span>, secondaryMsg: Option<string>): (d: Diagnostic)
    ensures d.message == message
    ensures |d.labels| == if secondaryMsg.Some? then 2 else 1
    ensures d.labels[0] == Label(Primary, firstId, primarySpan, primaryMsg)
    ensures d.labels[0].message.Some? <==> primaryMsg.Some?
    ensures secondaryMsg.Some? ==>
      d.labels[1] == Label(Secondary, firstId + 1, secondarySpan.GetOr(primarySpan), secondaryMsg)
    ensures forall i :: 0 <= i < |d.labels| ==> firstId <= d.labels[i].fileId < firstId + |d.labels|
  {
    var primary := Label(Primary, firstId, primarySpan, primaryMsg);
    match secondaryMsg
    case None => Diagnostic(message, [primary])
    case Some(m) =>
      var range := match secondarySpan case Some(s) => s case None => primarySpan;
      Diagnostic(message, [primary, Label(Secondary, firstId + 1, range, Some(m))])
  }

  /** A secondary span given without a secondary message has no effect. */
  lemma SecondarySpanNeedsMessage(firstId: nat, message: string, primarySpan: Span,
                                  primaryMsg: Option<string>, s1: Option<Span>, s2: Option<Span>)
    ensures ErrorFor(firstId, message, primarySpan, primaryMsg, s1, None)
         == ErrorFor(firstId, message, primarySpan, primaryMsg, s2, None)
  {
  }

  /** Every label of `d` points at one of the first `n` files. */
  ghost predicate LabelsWithin(d: Diagnostic, n: nat) {
    forall j :: 0 <= j < |d.labels| ==> d.labels[j].fileId < n
  }

  lemma LabelsWithinMonotonic(d: Diagnostic, n: nat, m: nat)
    requires LabelsWithin(d, n) && n <= m
    ensures LabelsWithin(d, m)
  {
  }

  /** What `emit` did. */
  datatype EmitOutcome =
    | NothingToEmit                                  // `Ok(())`, nothing written
    | Exited(rendered: seq<Diagnostic>, code: int)   // every error written, then `process::exit(code)`
    | RenderFailed(rendered: seq<Diagnostic>)        // `term::emit` failed: the error is returned

  class TomlErrorEmitter {
    /** `db`: the files, indexed by their `FileId`. */
    var db: seq<SimpleFile>
    /** `errors`: in insertion order. */
    var errors: seq<Diagnostic>

    /** Every label points at a file of the database. */
    ghost predicate Valid()
      reads this
    {
      forall i :: 0 <= i < |errors| ==> LabelsWithin(errors[i], |db|)
    }

    /** `TomlErrorEmitter::new`: no files and no errors. */
    constructor ()
      ensures Valid() && db == [] && errors == []
    {
      db := [];
      errors := [];
    }

    /** `SimpleFiles::add`: appends a file and returns its id. */
    method AddFile(path: string, contents: string) returns (id: nat)
      requires Valid()
      modifies this
      ensures Valid()
      ensures id == |old(db)| && db == old(db) + [SimpleFile(path, contents)] && errors == old(errors)
    {
      id := |db|;
      db := db + [SimpleFile(path, contents)];
    }

    /** `insert_err`: records exactly one diagnostic and leaves the earlier ones alone. */
    method InsertErr(path: string, contents: string, message: string, primarySpan: Span,
                     primaryMsg: Option<string>, secondarySpan: Option<Span>, secondaryMsg: Option<string>)
      requires Valid()
      modifies this
      ensures Valid()
      ensures db == old(db) + FilesFor(path, contents, secondaryMsg)
      ensures errors == old(errors) + [ErrorFor(|old(db)|, message, primarySpan, primaryMsg, secondarySpan, secondaryMsg)]
    {
      var labels: seq<Label> := [];
      var primaryId := AddFile(path, contents);
      var primaryLabel := Label(Primary, primaryId, primarySpan, None);
      if primaryMsg.Some? {
        primaryLabel := primaryLabel.(message := primaryMsg);
      }
      labels := labels + [primaryLabel];
      if secondaryMsg.Some? {
        var secondaryId := AddFile(path, contents);
        var range := if secondarySpan.Some? then secondarySpan.value else primarySpan;
        labels := labels + [Label(Secondary, secondaryId, range, secondaryMsg)];
      }
      assert primaryLabel == Label(Primary, |old(db)|, primarySpan, primaryMsg);
      var d := Diagnostic(message, labels);
      assert d == ErrorFor(|old(db)|, message, primarySpan, primaryMsg, secondarySpan, secondaryMsg);
      assert LabelsWithin(d, |db|);
      errors := errors + [d];
    }

    /**
     * `emit`: with no errors, returns without output; otherwise writes the
     * errors newest first and exits with code 1. `failAt` is the number of the
     * write (counting from 0) that fails, if any.
     */
    method Emit(failAt: Option<nat>) returns (r: EmitOutcome)
      ensures r == NothingToEmit <==> errors == []
      ensures r.Exited? <==> errors != [] && (failAt.None? || failAt.value >= |errors|)
      ensures r.Exited? ==> r.code == 1 && |r.rendered| == |errors|
      ensures r.Exited? ==> forall k :: 0 <= k < |errors| ==> r.rendered[k] == errors[|errors| - 1 - k]
      ensures r.RenderFailed? ==> failAt.Some? && |r.rendered| == failAt.value < |errors|
      ensures r.RenderFailed? ==> forall k :: 0 <= k < |r.rendered| ==> r.rendered[k] == errors[|errors| - 1 - k]
    {
      if errors == [] {
        return NothingToEmit;
      }
      var rendered: seq<Diagnostic> := [];
      var i := 0;
      while i < |errors|
        invariant 0 <= i <= |errors| && |rendered| == i
        invariant failAt.Some? ==> i <= failAt.value
        invariant forall k :: 0 <= k < i ==> rendered[k] == errors[|errors| - 1 - k]
      {
        if failAt == Some(i) {
          return RenderFailed(rendered);
        }
        rendered := rendered + [errors[|errors| - 1 - i]];
        i := i + 1;
      }
      return Exited(rendered, 1);
    }
  }
}
