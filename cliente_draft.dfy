/**
 * The customer draft both conversation services read out of a multi-line
 * reply: the first three non-blank trimmed lines are name, phone and email.
 */
module ClienteDraft {
  import opened Wrappers
  import Text

  datatype Draft = Draft(nombre: string, telefono: Option<string>, email: Option<string>)

  /** `[ln.strip() for ln in text.splitlines() if ln.strip()] or [text.strip()]`. */
  function Lines(text: string): (lines: seq<string>)
    ensures |lines| >= 1
    ensures Text.NonBlankLines(text) != [] ==> lines == Text.NonBlankLines(text)
    ensures Text.NonBlankLines(text) == [] ==> lines == [Text.Strip(text)]
  {
    var ls := Text.NonBlankLines(text);
    if ls != [] then ls else [Text.Strip(text)]
  }

  /** `nombre = lines[0]`, `telefono = lines[1]` and `email = lines[2]` when present. */
  function Parse(text: string): (d: Draft)
    ensures var lines := Lines(text);
      && d.nombre == lines[0]
      && (d.telefono.Some? <==> |lines| > 1) && (d.telefono.Some? ==> d.telefono.value == lines[1])
      && (d.email.Some? <==> |lines| > 2) && (d.email.Some? ==> d.email.value == lines[2])
  {
    var lines := Lines(text);
    Draft(lines[0], if |lines| > 1 then Some(lines[1]) else None, if |lines| > 2 then Some(lines[2]) else None)
  }

  /**
   * For any reply: the first, second and third lines of `splitlines()` that are
   * non-blank once trimmed give, trimmed, the name, the phone and the email, and
   * phone and email are present exactly when there are that many such lines.
   */
  lemma ParseFromLines(text: string, j: nat)
    requires j < |Text.SplitLines(text)| && Text.Strip(Text.SplitLines(text)[j]) != []
    ensures var lines := Text.SplitLines(text);
      var n, t := Text.NonBlankBefore(lines, j), Text.Strip(lines[j]);
      && (n == 0 ==> Parse(text).nombre == t)
      && (n == 1 ==> Parse(text).telefono == Some(t))
      && (n == 2 ==> Parse(text).email == Some(t))
    ensures var lines := Text.SplitLines(text);
      && (Parse(text).telefono.Some? <==> Text.NonBlankBefore(lines, |lines|) > 1)
      && (Parse(text).email.Some? <==> Text.NonBlankBefore(lines, |lines|) > 2)
  {
    var lines := Text.SplitLines(text);
    Text.StripLinesAt(lines, j);
    Text.StripLinesLength(lines);
  }

  /** The name is empty exactly when the whole reply is blank. */
  lemma {:induction false} NameEmptyIffBlank(text: string)
    ensures Parse(text).nombre == [] <==> Text.IsBlank(text)
  {
    if Text.IsBlank(text) {
      Text.BlankHasNoLines(text);
    } else {
      Text.NonBlankHasLine(text);
    }
  }

  /** A line that `strip` keeps as it is and that holds no line break. */
  predicate CleanLine(s: string) {
    s != [] && Text.Strip(s) == s && Text.NoBreaks(s)
  }

  lemma {:induction false} StripClean(xs: seq<string>)
    requires forall k | 0 <= k < |xs| :: CleanLine(xs[k])
    ensures Text.StripLines(xs) == xs
  {
    if xs != [] {
      StripClean(xs[1..]);
      assert xs == [xs[0]] + xs[1..];
    }
  }

  lemma SplitThree(a: string, b: string, c: string)
    requires CleanLine(a) && CleanLine(b) && CleanLine(c)
    ensures Text.SplitLines(a + "\n" + b + "\n" + c) == [a, b, c]
  {
    Text.SplitSingle(c);
    Text.SplitCons(b, c);
    var s := a + "\n" + b + "\n" + c;
    assert s == a + "\n" + (b + "\n" + c);
    Text.SplitCons(a, b + "\n" + c);
  }

  lemma SplitThreeMore(a: string, b: string, c: string, rest: string)
    requires CleanLine(a) && CleanLine(b) && CleanLine(c)
    ensures Text.SplitLines(a + "\n" + (b + "\n" + (c + "\n" + rest))) == [a, b, c] + Text.SplitLines(rest)
  {
    var r2 := c + "\n" + rest;
    Text.SplitCons(c, rest);
    Text.SplitCons(b, r2);
    Text.SplitCons(a, b + "\n" + r2);
  }

  /** Three clean lines give name, phone and email. */
  lemma ThreeLines(a: string, b: string, c: string)
    requires CleanLine(a) && CleanLine(b) && CleanLine(c)
    ensures Parse(a + "\n" + b + "\n" + c) == Draft(a, Some(b), Some(c))
  {
    SplitThree(a, b, c);
    StripClean([a, b, c]);
  }

  /** Lines after the third are ignored. */
  lemma LaterLinesIgnored(a: string, b: string, c: string, rest: string)
    requires CleanLine(a) && CleanLine(b) && CleanLine(c)
    ensures Parse(a + "\n" + (b + "\n" + (c + "\n" + rest))) == Draft(a, Some(b), Some(c))
  {
    SplitThreeMore(a, b, c, rest);
    StripClean([a, b, c]);
    Text.StripLinesConcat([a, b, c], Text.SplitLines(rest));
  }

  /** A single clean line is a name with no phone and no email. */
  lemma NameOnly(a: string)
    requires CleanLine(a)
    ensures Parse(a) == Draft(a, None, None)
  {
    Text.SplitSingle(a);
    StripClean([a]);
  }
}
