/**
 * The client's two helpers that locate a report in the application's code:
 * getCodeSnippet (the lines around an error) and findQueryCaller (the first
 * backtrace frame outside the framework and this package). The file system
 * and debug_backtrace are not consulted: the file's lines and the frames
 * are inputs.
 */
module SourceContext {
  import opened Wrappers
  import opened Text

  function Max(a: int, b: int): int {
    if a >= b then a else b
  }

  function Min(a: int, b: int): int {
    if a <= b then a else b
  }

  /** One line of a code snippet: its 1-based line number and its text. */
  datatype SnippetLine = SnippetLine(number: int, content: string)

  /**
   * The snippet getCodeSnippet returns: the lines of the file from
   * `line - context` to `line + context`, clipped to the file, each with its
   * 1-based number and right-trimmed. `file` is None when the file does not
   * exist or is not readable, else the file's lines. With the default
   * context of 5 there are at most 11 entries.
   */
  function CodeSnippet(file: Option<seq<string>>, line: int, context: int): (snippet: seq<SnippetLine>)
    ensures file.None? ==> snippet == []
    ensures file.Some? ==>
              |snippet| == Max(0, Min(|file.value|, line + context) - Max(1, line - context) + 1)
    ensures |snippet| <= Max(0, 2 * context + 1)
    ensures forall k :: 0 <= k < |snippet| ==>
              && snippet[k].number == Max(1, line - context) + k
              && 1 <= snippet[k].number <= |file.value|
              && snippet[k].content == RTrim(file.value[snippet[k].number - 1])
  {
    match file
    case None => []
    case Some(lines) =>
      var first := Max(1, line - context);
      var last := Min(|lines|, line + context);
      seq(Max(0, last - first + 1), k requires 0 <= k < Max(0, last - first + 1) =>
        SnippetLine(first + k, RTrim(lines[first + k - 1])))
  }

  /** getCodeSnippet: collects the lines of the window one by one. */
  method GetCodeSnippet(file: Option<seq<string>>, line: int, context: int := 5)
    returns (snippet: seq<SnippetLine>)
    ensures snippet == CodeSnippet(file, line, context)
  {
    if file.None? {
      return [];
    }
    var lines := file.value;
    snippet := [];
    var start := Max(0, line - context - 1);
    var end := Min(|lines|, line + context);
    var i := start;
    while i < end
      invariant start <= i <= Max(start, end)
      invariant |snippet| == i - start
      invariant forall k :: 0 <= k < |snippet| ==>
        snippet[k] == SnippetLine(start + k + 1, RTrim(lines[start + k]))
    {
      snippet := snippet + [SnippetLine(i + 1, RTrim(lines[i]))];
      i := i + 1;
    }
  }

  /** A backtrace frame; internal functions have no file and no line. */
  datatype Frame = Frame(file: Option<string>, line: Option<int>)

  /** A frame is the query's caller unless its file (empty if absent) lies under `/vendor/` or in this package. */
  predicate IsApplicationFrame(f: Frame) {
    var file := f.file.GetOr("");
    !Contains(file, "/vendor/") && !Contains(file, "BitL/Debug")
  }

  /** The first application frame, if any. */
  function FirstApplicationFrame(frames: seq<Frame>): Option<Frame>
  {
    if |frames| == 0 then None
    else if IsApplicationFrame(frames[0]) then Some(frames[0])
    else FirstApplicationFrame(frames[1..])
  }

  /** The frame findQueryCaller returns: the first application frame, else the first frame, else none. */
  function QueryCaller(backtrace: seq<Frame>): Option<Frame>
  {
    match FirstApplicationFrame(backtrace)
    case Some(f) => Some(f)
    case None => if |backtrace| == 0 then None else Some(backtrace[0])
  }

  /** FirstApplicationFrame finds the frame of least index that is an application frame. */
  lemma {:induction false} FirstApplicationFrameIsFirst(frames: seq<Frame>)
    ensures FirstApplicationFrame(frames).Some? <==> exists i :: 0 <= i < |frames| && IsApplicationFrame(frames[i])
    ensures forall i :: (0 <= i < |frames| && IsApplicationFrame(frames[i])
                         && forall j :: 0 <= j < i ==> !IsApplicationFrame(frames[j]))
                        ==> FirstApplicationFrame(frames) == Some(frames[i])
  {
    if |frames| > 0 {
      FirstApplicationFrameIsFirst(frames[1..]);
      if !IsApplicationFrame(frames[0]) {
        forall i | 0 < i < |frames| && IsApplicationFrame(frames[i])
          ensures IsApplicationFrame(frames[1..][i - 1])
        {
        }
        if exists i :: 0 <= i < |frames[1..]| && IsApplicationFrame(frames[1..][i]) {
          var i :| 0 <= i < |frames[1..]| && IsApplicationFrame(frames[1..][i]);
          assert IsApplicationFrame(frames[i + 1]);
        }
        forall i | 0 <= i < |frames| && IsApplicationFrame(frames[i])
                   && forall j :: 0 <= j < i ==> !IsApplicationFrame(frames[j])
          ensures FirstApplicationFrame(frames) == Some(frames[i])
        {
          assert i > 0;
          assert frames[1..][i - 1] == frames[i];
          assert forall j :: 0 <= j < i - 1 ==> frames[1..][j] == frames[j + 1];
        }
      }
    }
  }

  /** The caller is absent only for an empty backtrace, and falls back to frame 0 when no frame qualifies. */
  lemma QueryCallerFallback(backtrace: seq<Frame>)
    ensures QueryCaller(backtrace).Some? <==> |backtrace| > 0
    ensures (forall i :: 0 <= i < |backtrace| ==> !IsApplicationFrame(backtrace[i]))
            ==> QueryCaller(backtrace) == if |backtrace| == 0 then None else Some(backtrace[0])
    ensures forall i :: (0 <= i < |backtrace| && IsApplicationFrame(backtrace[i])
                         && forall j :: 0 <= j < i ==> !IsApplicationFrame(backtrace[j]))
                        ==> QueryCaller(backtrace) == Some(backtrace[i])
  {
    FirstApplicationFrameIsFirst(backtrace);
  }

  /** findQueryCaller: scans the frames in order and returns at the first application frame. */
  method FindQueryCaller(backtrace: seq<Frame>) returns (caller: Option<Frame>)
    ensures caller == QueryCaller(backtrace)
  {
    var i := 0;
    while i < |backtrace|
      invariant 0 <= i <= |backtrace|
      invariant FirstApplicationFrame(backtrace[i..]) == FirstApplicationFrame(backtrace)
    {
      if IsApplicationFrame(backtrace[i]) {
        return Some(backtrace[i]);
      }
      assert backtrace[i..][1..] == backtrace[i + 1..];
      i := i + 1;
    }
    caller := if |backtrace| == 0 then None else Some(backtrace[0]);
  }

  /** A frame without a file is taken as the caller: its file counts as the empty string. */
  lemma FilelessFrameIsApplicationFrame(line: Option<int>)
    ensures IsApplicationFrame(Frame(None, line))
  {
  }

  /** Frames from vendor code or from this package are skipped. */
  lemma VendorAndPackageFramesSkipped(prefix: string, suffix: string, line: Option<int>)
    ensures !IsApplicationFrame(Frame(Some(prefix + "/vendor/" + suffix), line))
    ensures !IsApplicationFrame(Frame(Some(prefix + "BitL/Debug" + suffix), line))
  {
    var v := prefix + "/vendor/" + suffix;
    assert v[|prefix|..|prefix| + |"/vendor/"|] == "/vendor/";
    assert OccursAt(v, "/vendor/", |prefix|);
    OccursContains(v, "/vendor/", |prefix|);
    var b := prefix + "BitL/Debug" + suffix;
    assert b[|prefix|..|prefix| + |"BitL/Debug"|] == "BitL/Debug";
    assert OccursAt(b, "BitL/Debug", |prefix|);
    OccursContains(b, "BitL/Debug", |prefix|);
  }
}
