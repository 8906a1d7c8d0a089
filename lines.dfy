/** The line classifier of `analyzeCode` (lib/code-analyzer.ts:5-24) and
    `isComment` (lib/code-analyzer.ts:74-79): every line is blank, a comment or
    code, judged on that line alone, with no memory of an open block comment. */
module Lines {
  import opened Text
  import opened Languages

  datatype LineKind = Blank | Comment | Code

  /** `prefixes.some((p) => line.startsWith(p))`. */
  function AnyPrefix(line: string, prefixes: seq<string>): bool
  {
    if prefixes == [] then false
    else StartsWith(line, prefixes[0]) || AnyPrefix(line, prefixes[1..])
  }

  /** `AnyPrefix` holds exactly when one of the prefixes starts the line. */
  lemma {:induction false} AnyPrefixMeaning(line: string, prefixes: seq<string>)
    ensures AnyPrefix(line, prefixes) <==> exists i :: 0 <= i < |prefixes| && StartsWith(line, prefixes[i])
  {
    if prefixes != [] {
      AnyPrefixMeaning(line, prefixes[1..]);
      assert forall i :: 1 <= i < |prefixes| ==> prefixes[i] == prefixes[1..][i - 1];
      if AnyPrefix(line, prefixes[1..]) {
        var i :| 0 <= i < |prefixes[1..]| && StartsWith(line, prefixes[1..][i]);
        assert StartsWith(line, prefixes[i + 1]);
      }
    }
  }

  /** The start delimiters of the block-comment pairs, in table order. */
  function StartDelimiters(multi: seq<BlockDelimiter>): (r: seq<string>)
    ensures |r| == |multi|
    ensures forall i :: 0 <= i < |multi| ==> r[i] == multi[i].start
  {
    seq(|multi|, i requires 0 <= i < |multi| => multi[i].start)
  }

  /** `isComment`: the (already trimmed) line starts with a single-line prefix
      or with the start of a block comment. */
  function IsComment(line: string, p: CommentPatterns): bool
  {
    AnyPrefix(line, p.single) || AnyPrefix(line, StartDelimiters(p.multi))
  }

  /** A line is a comment exactly when one of the single-line prefixes or one
      of the block-comment start delimiters starts it. */
  lemma IsCommentMeaning(line: string, p: CommentPatterns)
    ensures IsComment(line, p) <==>
      ((exists i :: 0 <= i < |p.single| && StartsWith(line, p.single[i]))
       || (exists j :: 0 <= j < |p.multi| && StartsWith(line, p.multi[j].start)))
  {
    var starts := StartDelimiters(p.multi);
    AnyPrefixMeaning(line, p.single);
    AnyPrefixMeaning(line, starts);
    if AnyPrefix(line, starts) {
      var j :| 0 <= j < |starts| && StartsWith(line, starts[j]);
      assert StartsWith(line, p.multi[j].start);
    }
  }

  /** The kind of one line: the body of the `forEach` in `analyzeCode`. */
  function Classify(line: string, p: CommentPatterns): LineKind
  {
    var trimmed := Trim(line);
    if trimmed == "" then Blank
    else if IsComment(trimmed, p) then Comment
    else Code
  }

  /** A line is blank exactly when it consists of white space only, and a
      comment exactly when its trimmed form starts with a comment marker. */
  lemma ClassifyMeaning(line: string, p: CommentPatterns)
    ensures Classify(line, p) == Blank <==> forall i :: 0 <= i < |line| ==> IsWhiteSpace(line[i])
    ensures Classify(line, p) == Comment <==>
      Trim(line) != "" &&
      ((exists i :: 0 <= i < |p.single| && StartsWith(Trim(line), p.single[i]))
       || (exists j :: 0 <= j < |p.multi| && StartsWith(Trim(line), p.multi[j].start)))
  {
    TrimEmpty(line);
    IsCommentMeaning(Trim(line), p);
  }

  /** The kind of every line, in order. */
  function Kinds(lines: seq<string>, p: CommentPatterns): (kinds: seq<LineKind>)
    ensures |kinds| == |lines|
    ensures forall i :: 0 <= i < |lines| ==> kinds[i] == Classify(lines[i], p)
  {
    seq(|lines|, i requires 0 <= i < |lines| => Classify(lines[i], p))
  }

  /** Number of entries equal to `k`. */
  function Occurrences(kinds: seq<LineKind>, k: LineKind): nat
  {
    if kinds == [] then 0
    else Occurrences(kinds[..|kinds| - 1], k) + (if kinds[|kinds| - 1] == k then 1 else 0)
  }

  /** Number of lines of kind `k`. */
  function CountKind(lines: seq<string>, p: CommentPatterns, k: LineKind): nat
  {
    Occurrences(Kinds(lines, p), k)
  }

  /** Counting one more entry adds one to the count of its kind only. */
  lemma OccurrencesStep(kinds: seq<LineKind>, i: nat, k: LineKind)
    requires i < |kinds|
    ensures Occurrences(kinds[..i + 1], k) == Occurrences(kinds[..i], k) + (if kinds[i] == k then 1 else 0)
  {
    assert kinds[..i + 1][..i] == kinds[..i];
  }

  /** The three kinds partition the entries. */
  lemma {:induction false} OccurrencesPartition(kinds: seq<LineKind>)
    ensures Occurrences(kinds, Blank) + Occurrences(kinds, Comment) + Occurrences(kinds, Code) == |kinds|
  {
    if kinds != [] {
      OccurrencesPartition(kinds[..|kinds| - 1]);
    }
  }

  /** The three kinds partition the lines. */
  lemma KindsPartition(lines: seq<string>, p: CommentPatterns)
    ensures CountKind(lines, p, Blank) + CountKind(lines, p, Comment) + CountKind(lines, p, Code) == |lines|
  {
    OccurrencesPartition(Kinds(lines, p));
  }

  /** The body of the `forEach` of `analyzeCode`: trim the line, then test
      for blank and comment in that order. */
  method ClassifyLine(line: string, commentPatterns: CommentPatterns) returns (kind: LineKind)
    ensures kind == Classify(line, commentPatterns)
  {
    var trimmed := Trim(line);
    if trimmed == "" {
      kind := Blank;
    } else if IsComment(trimmed, commentPatterns) {
      kind := Comment;
    } else {
      kind := Code;
    }
  }

  /** The `forEach` of `analyzeCode`: classify each line and bump one of
      three counters. */
  method TallyLines(lines: seq<string>, commentPatterns: CommentPatterns)
    returns (codeLines: nat, commentLines: nat, blankLines: nat)
    ensures codeLines == CountKind(lines, commentPatterns, Code)
    ensures commentLines == CountKind(lines, commentPatterns, Comment)
    ensures blankLines == CountKind(lines, commentPatterns, Blank)
    ensures codeLines + commentLines + blankLines == |lines|
  {
    ghost var kinds := Kinds(lines, commentPatterns);
    codeLines, commentLines, blankLines := 0, 0, 0;
    var i := 0;
    while i < |lines|
      invariant 0 <= i <= |lines|
      invariant codeLines == Occurrences(kinds[..i], Code)
      invariant commentLines == Occurrences(kinds[..i], Comment)
      invariant blankLines == Occurrences(kinds[..i], Blank)
      invariant codeLines + commentLines + blankLines == i
    {
      var kind := ClassifyLine(lines[i], commentPatterns);
      OccurrencesStep(kinds, i, Code);
      OccurrencesStep(kinds, i, Comment);
      OccurrencesStep(kinds, i, Blank);
      match kind {
        case Blank => blankLines := blankLines + 1;
        case Comment => commentLines := commentLines + 1;
        case Code => codeLines := codeLines + 1;
      }
      i := i + 1;
    }
    assert kinds[..i] == kinds;
  }

  /** The line counts of `analyzeCode`: split on "\n" and tally the lines
      under the comment syntax of the language. */
  method CountLines(code: string, language: string)
    returns (totalLines: nat, codeLines: nat, commentLines: nat, blankLines: nat)
    ensures totalLines == CountChar(code, '\n') + 1
    ensures totalLines == codeLines + commentLines + blankLines
    ensures codeLines == CountKind(Split(code, '\n'), GetCommentPatterns(language), Code)
    ensures commentLines == CountKind(Split(code, '\n'), GetCommentPatterns(language), Comment)
    ensures blankLines == CountKind(Split(code, '\n'), GetCommentPatterns(language), Blank)
  {
    var lines := Split(code, '\n');
    totalLines := |lines|;
    var commentPatterns := GetCommentPatterns(language);
    codeLines, commentLines, blankLines := TallyLines(lines, commentPatterns);
  }

  /** The empty text is one blank line and nothing else. */
  lemma EmptyTextIsOneBlankLine(language: string)
    ensures var lines := Split("", '\n');
      var p := GetCommentPatterns(language);
      |lines| == 1 && CountKind(lines, p, Blank) == 1
      && CountKind(lines, p, Comment) == 0 && CountKind(lines, p, Code) == 0
  {
    var lines := Split("", '\n');
    assert lines[..0] == [];
  }

  /** No block-comment state: the closing line of a C-style block comment
      (the comment syntax of every tag but "python"), which does not itself
      start with a delimiter, counts as code. */
  lemma BlockCommentTailIsCode()
    ensures Classify("x */", CStyleComments) == Code
  {
    assert "x */"[0] == 'x' && "x */"[3] == '/';
    assert Trim("x */") == "x */";
  }

  /** The opening line of the same block comment counts as a comment. */
  lemma BlockCommentHeadIsComment()
    ensures Classify("/* x", CStyleComments) == Comment
  {
    assert "/* x"[0] == '/' && "/* x"[3] == 'x';
    assert Trim("/* x") == "/* x";
    assert StartsWith("/* x", CStyleComments.multi[0].start);
  }
}
