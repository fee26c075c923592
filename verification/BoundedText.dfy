/** Text cut to a number of bytes without cutting a character. */
module BoundedText {

  predicate IsSpace(c: char) {
    || '\U{0009}' <= c <= '\U{000D}' || '\U{001C}' <= c <= '\U{0020}' || c == '\U{0085}' || c == '\U{00A0}'
      || c == '\U{1680}'
    || '\U{2000}' <= c <= '\U{200A}' || c == '\U{2028}' || c == '\U{2029}' || c == '\U{202F}' || c == '\U{205F}'
      || c == '\U{3000}'
  }

  function TrimEnd(s: string): (r: string)
    ensures r <= s && (r != [] ==> !IsSpace(r[|r| - 1]))
  {
    if s != [] && IsSpace(s[|s| - 1]) then TrimEnd(s[..|s| - 1]) else s
  }

  const MARK: string := "..."

  const MARK_SIZE: nat := 3

  /** Bytes of a character in UTF-8. */
  function Width(c: char): (n: nat)
    ensures 1 <= n <= 4
  {
    if c < '\U{0080}' then 1 else if c < '\U{0800}' then 2 else if c < '\U{10000}' then 3 else 4
  }

  function Size(s: string): (n: nat)
    ensures |s| <= n
  {
    if s == [] then 0 else Width(s[0]) + Size(s[1..])
  }

  /** The characters that are whole in the first `limit` bytes. */
  function Whole(s: string, limit: int): (r: string)
    ensures r <= s && (0 <= limit ==> Size(r) <= limit)
  {
    if s == [] || Width(s[0]) > limit then []
    else
      var rest := Whole(s[1..], limit - Width(s[0]));
      assert ([s[0]] + rest)[1..] == rest;
      [s[0]] + rest
  }

  lemma {:induction false} SizeConcat(a: string, b: string)
    ensures Size(a + b) == Size(a) + Size(b)
  {
    if a == [] {
      assert a + b == b;
    } else {
      assert (a + b)[1..] == a[1..] + b;
      SizeConcat(a[1..], b);
    }
  }

  lemma PrefixSize(a: string, b: string)
    requires a <= b
    ensures Size(a) <= Size(b)
  {
    assert b == a + b[|a|..];
    SizeConcat(a, b[|a|..]);
  }

  lemma MarkSize()
    ensures Size(MARK) == MARK_SIZE
  {
    assert MARK[1..] == ".." && ".."[1..] == "." && "."[1..] == "";
  }

  /** What is left of a text that is too long: whole characters, and a mark if there is room for it. */
  function Shortened(s: string, limit: nat): (r: string) {
    if limit <= MARK_SIZE then Whole(s, limit) else TrimEnd(Whole(s, limit - MARK_SIZE)) + MARK
  }

  function TruncateUtf8(s: string, limit: nat): (r: string) {
    if Size(s) <= limit then s else Shortened(s, limit)
  }

  lemma ShortenedIsBounded(s: string, limit: nat)
    ensures Size(Shortened(s, limit)) <= limit
  {
    if limit > MARK_SIZE {
      var whole := Whole(s, limit - MARK_SIZE);
      PrefixSize(TrimEnd(whole), whole);
      MarkSize();
      SizeConcat(TrimEnd(whole), MARK);
    }
  }

  /** Nothing more would have fitted. */
  lemma {:induction false} WholeIsLongest(s: string, limit: nat)
    ensures |Whole(s, limit)| < |s| ==> Size(s[..|Whole(s, limit)| + 1]) > limit
    decreases |s|
  {
    if s != [] {
      var n := |Whole(s, limit)|;
      if Width(s[0]) <= limit {
        WholeIsLongest(s[1..], limit - Width(s[0]));
        if n < |s| { assert s[..n + 1][1..] == s[1..][..n]; }
      } else {
        assert s[..1][1..] == [];
      }
    }
  }

  /** Truncation keeps within the limit, and keeps whole characters: the text itself exactly when it
      fits, or else a prefix of it, marked when there is room. */
  lemma TruncateIsBounded(s: string, limit: nat)
    ensures Size(TruncateUtf8(s, limit)) <= limit
    ensures TruncateUtf8(s, limit) == s <==> Size(s) <= limit
    ensures Size(s) > limit ==> IsPrefixMarked(TruncateUtf8(s, limit), s, limit)
  {
    if Size(s) > limit {
      ShortenedIsBounded(s, limit);
      var whole := Whole(s, if limit <= MARK_SIZE then limit else limit - MARK_SIZE);
      assert TrimEnd(whole) <= s;
    }
  }

  ghost predicate IsPrefixMarked(r: string, s: string, limit: nat) {
    if limit <= MARK_SIZE then r <= s else |MARK| <= |r| && r[|r| - |MARK|..] == MARK && r[..|r| - |MARK|] <= s
  }

  function JoinLines(lines: seq<string>): (r: string) {
    if lines == [] then "" else if |lines| == 1 then lines[0] else lines[0] + "\n" + JoinLines(lines[1..])
  }

  /** The bytes that joined lines take. */
  function Used(lines: seq<string>): (n: nat) {
    if lines == [] then 0 else (if |lines| > 1 then Used(lines[..|lines| - 1]) + 1 else 0) + Size(lines[|lines| - 1])
  }

  /** The bytes the next line may take, counting the newline before it. */
  function Remaining(chosen: seq<string>, limit: nat): (n: int) { limit - Used(chosen) - if chosen != [] then 1 else 0 }

  /** What becomes of the next line: no room for any, nothing of it, or its text, cut or whole. */
  datatype Choice = Full | Skipped | Cut(text: string) | Kept(text: string)

  function Weigh(chosen: seq<string>, line: string, limit: nat): (c: Choice) {
    if Remaining(chosen, limit) <= 0 then Full
    else
      var bounded := TruncateUtf8(line, Remaining(chosen, limit));
      if |bounded| == 0 then Skipped else if Size(bounded) < Size(line) then Cut(bounded) else Kept(bounded)
  }

  /** What is chosen from `lines` when `chosen` already is. */
  function Choose(chosen: seq<string>, lines: seq<string>, limit: nat): (r: seq<string>)
    decreases |lines|
  {
    if lines == [] then chosen
    else match Weigh(chosen, lines[0], limit)
      case Full => chosen
      case Skipped => Choose(chosen, lines[1..], limit)
      case Cut(text) => chosen + [text]
      case Kept(text) => Choose(chosen + [text], lines[1..], limit)
  }

  lemma UsedAppend(chosen: seq<string>, line: string)
    ensures Used(chosen + [line]) == Used(chosen) + (if chosen != [] then 1 else 0) + Size(line)
  {
    assert (chosen + [line])[..|chosen|] == chosen;
  }

  /** A kept line is the whole line, and what is kept or cut fits. */
  lemma WeighFits(chosen: seq<string>, line: string, limit: nat)
    requires Used(chosen) <= limit
    ensures
      var c := Weigh(chosen, line, limit);
      && (c.Kept? ==> c.text == line)
      && (c.Kept? || c.Cut? ==> Used(chosen + [c.text]) <= limit)
      && (c.Skipped? && |line| > 0 ==> Size(line) > Remaining(chosen, limit))
  {
    if Remaining(chosen, limit) > 0 {
      TruncateIsBounded(line, Remaining(chosen, limit));
      ShortenedIsShorter(line, Remaining(chosen, limit));
      UsedAppend(chosen, TruncateUtf8(line, Remaining(chosen, limit)));
    }
  }

  lemma ShortenedIsShorter(s: string, limit: nat)
    ensures Size(s) > limit ==> Size(TruncateUtf8(s, limit)) < Size(s)
  {
    TruncateIsBounded(s, limit);
  }

  lemma WeighKeeps(chosen: seq<string>, line: string, limit: nat)
    requires |line| > 0 && Size(line) <= Remaining(chosen, limit)
    ensures Weigh(chosen, line, limit) == Kept(line)
  {
  }

  method WeighLine(chosen: seq<string>, remaining: int, line: string, limit: nat) returns (c: Choice)
    requires remaining == Remaining(chosen, limit)
    ensures c == Weigh(chosen, line, limit)
  {
    if remaining <= 0 { return Full; }
    var bounded := TruncateUtf8(line, remaining);
    c := if |bounded| == 0 then Skipped else if Size(bounded) < Size(line) then Cut(bounded) else Kept(bounded);
  }

  method JoinBoundedLines(lines: seq<string>, limit: nat) returns (r: string)
    ensures r == JoinLines(Choose([], lines, limit))
  {
    var selected, used := [], 0;
    for i := 0 to |lines|
      invariant used == Used(selected)
      invariant Choose(selected, lines[i..], limit) == Choose([], lines, limit)
    {
      var separator := if selected != [] then 1 else 0;
      var choice := WeighLine(selected, limit - used - separator, lines[i], limit);
      assert lines[i..][1..] == lines[i + 1..];
      match choice {
        case Full => return JoinLines(selected);
        case Skipped =>
        case Cut(text) => return JoinLines(selected + [text]);
        case Kept(text) =>
          UsedAppend(selected, text);
          selected, used := selected + [text], used + separator + Size(text);
      }
    }
    r := JoinLines(selected);
  }

  lemma {:induction false} JoinSize(lines: seq<string>)
    ensures Size(JoinLines(lines)) == Used(lines)
  {
    if lines != [] {
      var n := |lines| - 1;
      assert lines == lines[..n] + [lines[n]];
      if n > 0 {
        JoinSize(lines[..n]);
        JoinAppend(lines[..n], lines[n]);
        SizeConcat(JoinLines(lines[..n]) + "\n", lines[n]);
        SizeConcat(JoinLines(lines[..n]), "\n");
      }
    }
  }

  lemma {:induction false} JoinAppend(lines: seq<string>, line: string)
    requires lines != []
    ensures JoinLines(lines + [line]) == JoinLines(lines) + "\n" + line
  {
    if |lines| > 1 {
      assert (lines + [line])[1..] == lines[1..] + [line];
      JoinAppend(lines[1..], line);
    } else {
      assert (lines + [line])[1..] == [line];
    }
  }

  lemma {:induction false} ChooseIsBounded(chosen: seq<string>, lines: seq<string>, limit: nat)
    requires Used(chosen) <= limit
    ensures Used(Choose(chosen, lines, limit)) <= limit
    decreases |lines|
  {
    if lines != [] {
      WeighFits(chosen, lines[0], limit);
      match Weigh(chosen, lines[0], limit) {
        case Skipped => ChooseIsBounded(chosen, lines[1..], limit);
        case Kept(text) => ChooseIsBounded(chosen + [text], lines[1..], limit);
        case _ =>
      }
    }
  }

  function NonEmpty(lines: seq<string>): (r: seq<string>) {
    if lines == [] then [] else (if |lines[0]| == 0 then [] else [lines[0]]) + NonEmpty(lines[1..])
  }

  lemma {:induction false} UsedGrows(a: seq<string>, b: seq<string>)
    ensures Used(a + b) >= Used(a) + if a != [] && b != [] then 1 else 0
    ensures b != [] && |b[0]| > 0 ==> Used(a + b) > Used(a) + if a != [] then 1 else 0
    decreases |b|
  {
    if b == [] {
      assert a + b == a;
    } else {
      UsedAppend(a, b[0]);
      assert a + b == (a + [b[0]]) + b[1..];
      UsedGrows(a + [b[0]], b[1..]);
    }
  }

  lemma {:induction false} ChooseKeepsAll(chosen: seq<string>, lines: seq<string>, limit: nat)
    requires Used(chosen + NonEmpty(lines)) <= limit
    ensures Choose(chosen, lines, limit) == chosen + NonEmpty(lines)
    decreases |lines|
  {
    if lines != [] {
      var rest := NonEmpty(lines[1..]);
      if |lines[0]| == 0 {
        assert NonEmpty(lines) == rest;
        NonEmptyHead(lines[1..]);
        UsedGrows(chosen, rest);
        EmptyIsSkipped(chosen, lines[0], limit);
        ChooseKeepsAll(chosen, lines[1..], limit);
        assert rest == [] ==> chosen + rest == chosen;
      } else {
        assert chosen + NonEmpty(lines) == (chosen + [lines[0]]) + rest;
        UsedGrows(chosen + [lines[0]], rest);
        UsedAppend(chosen, lines[0]);
        WeighKeeps(chosen, lines[0], limit);
        ChooseKeepsAll(chosen + [lines[0]], lines[1..], limit);
      }
    }
  }

  lemma EmptyIsSkipped(chosen: seq<string>, line: string, limit: nat)
    requires |line| == 0
    ensures Weigh(chosen, line, limit) == if Remaining(chosen, limit) > 0 then Skipped else Full
  {
  }

  lemma {:induction false} NonEmptyHead(lines: seq<string>)
    ensures NonEmpty(lines) != [] ==> |NonEmpty(lines)[0]| > 0
  {
    if lines != [] { NonEmptyHead(lines[1..]); }
  }

  /** Joined lines stay within the limit, and when all of them fit nothing but empty lines is left out. */
  lemma JoinIsBounded(lines: seq<string>, limit: nat)
    ensures Size(JoinLines(Choose([], lines, limit))) <= limit
    ensures Size(JoinLines(NonEmpty(lines))) <= limit ==> Choose([], lines, limit) == NonEmpty(lines)
  {
    ChooseIsBounded([], lines, limit);
    JoinSize(Choose([], lines, limit));
    JoinSize(NonEmpty(lines));
    assert [] + NonEmpty(lines) == NonEmpty(lines);
    if Size(JoinLines(NonEmpty(lines))) <= limit { ChooseKeepsAll([], lines, limit); }
  }
}
