/** Strings, split into lines and put together again. */
module TextLines {
  type Line = string

  /** `s.split(c)`. */
  function Split(s: string, c: char): (parts: seq<string>)
    ensures |parts| >= 1
  {
    if s == [] then [[]]
    else
      var parts := Split(s[1..], c);
      if s[0] == c then [[]] + parts else [[s[0]] + parts[0]] + parts[1..]
  }

  /** `'\n'.join(lines)`. */
  function Join(lines: seq<Line>): (s: string) {
    if lines == [] then []
    else if |lines| == 1 then lines[0]
    else lines[0] + "\n" + Join(lines[1..])
  }

  /** Every line, each with its newline. */
  function Text(lines: seq<Line>): (s: string) {
    if lines == [] then [] else lines[0] + "\n" + Text(lines[1..])
  }

  ghost predicate Clean(lines: seq<Line>) {
    forall i | 0 <= i < |lines| :: '\n' !in lines[i]
  }

  /** What stands before the first separator is the first part. */
  lemma {:induction false} SplitFirst(word: string, c: char, s: string)
    requires c !in word
    ensures Split(word, c) == [word]
    ensures Split(word + [c] + s, c) == [word] + Split(s, c)
  {
    var whole := word + [c] + s;
    if word == [] {
      assert whole[1..] == s;
    } else {
      SplitFirst(word[1..], c, s);
      assert whole[1..] == word[1..] + [c] + s;
      assert [word[0]] + word[1..] == word;
    }
  }

  lemma {:induction false} SplitWhole(s: string, c: char)
    requires c !in s
    ensures Split(s, c) == [s]
  {
    SplitFirst(s, c, []);
  }

  /** The lines, and the empty one that `split` finds behind their last newline. */
  function Longer(lines: seq<Line>): (r: seq<Line>) {
    lines + [[]]
  }

  /** The first word of a line. */
  function Word(line: Line): (kw: string) {
    Split(line, ' ')[0]
  }

  /** What follows the first word and its space. */
  function Arguments(line: Line): (rest: string) {
    if |Word(line)| < |line| then line[|Word(line)| + 1..] else []
  }

  /** A text of whole lines splits into them and a trailing empty line. */
  lemma {:induction false} SplitText(lines: seq<Line>)
    requires Clean(lines)
    ensures Split(Text(lines), '\n') == Longer(lines)
  {
    if lines != [] {
      SplitText(lines[1..]);
      SplitFirst(lines[0], '\n', Text(lines[1..]));
      assert lines == [lines[0]] + lines[1..];
    }
  }

  lemma {:induction false} JoinText(lines: seq<Line>)
    requires lines != []
    ensures Join(lines) + "\n" == Text(lines)
  {
    if |lines| > 1 {
      JoinText(lines[1..]);
      assert Join(lines) + "\n" == lines[0] + "\n" + (Join(lines[1..]) + "\n");
    } else {
      assert Text(lines[1..]) == [] && Text(lines) == lines[0] + "\n";
    }
  }

  lemma {:induction false} TextSnoc(lines: seq<Line>, last: Line)
    ensures Text(lines + [last]) == Text(lines) + (last + "\n")
  {
    var all := lines + [last];
    if lines == [] {
      assert all[1..] == [] && Text(all) == last + "\n" + [];
    } else {
      TextSnoc(lines[1..], last);
      assert all[0] == lines[0] && all[1..] == lines[1..] + [last];
    }
  }
}
