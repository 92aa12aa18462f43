/**
 * The dynamically typed values that the command-line front ends put into a resource
 * configuration dictionary (str, int and bool), and the few Python built-ins the core
 * applies to them: str(), truthiness and str.split('\n').
 */
module PyValues {

  datatype Value = Str(s: string) | Int(i: int) | Bool(b: bool)

  function Digit(d: nat): char
    requires d < 10
  {
    "0123456789"[d]
  }

  /** Python's str(n) for a non-negative int: its decimal digits, most significant first. */
  function NatString(n: nat): (r: string)
    ensures |r| >= 1
    ensures n >= 10 ==> |r| >= 2
  {
    if n < 10 then [Digit(n)] else NatString(n / 10) + [Digit(n % 10)]
  }

  /** Distinct numbers have distinct decimal renderings. */
  lemma {:induction false} NatStringInjective(a: nat, b: nat)
    requires a != b
    ensures NatString(a) != NatString(b)
  {
    if a < 10 && b < 10 {
      assert NatString(a)[0] == Digit(a) && NatString(b)[0] == Digit(b);
    } else if a >= 10 && b >= 10 {
      var pa, pb := NatString(a / 10), NatString(b / 10);
      assert NatString(a) == pa + [Digit(a % 10)];
      assert NatString(b) == pb + [Digit(b % 10)];
      if |pa| == |pb| {
        if a % 10 != b % 10 {
          assert NatString(a)[|pa|] == Digit(a % 10) && NatString(b)[|pb|] == Digit(b % 10);
        } else {
          NatStringInjective(a / 10, b / 10);
          assert NatString(a)[..|pa|] == pa && NatString(b)[..|pb|] == pb;
        }
      }
    }
  }

  /** Python's str(i) for any int. */
  function IntString(i: int): string {
    if i < 0 then "-" + NatString(-i) else NatString(i)
  }

  /** Python's str(v), which is what an f-string interpolates. */
  function Render(v: Value): string {
    match v
    case Str(s) => s
    case Int(i) => IntString(i)
    case Bool(b) => if b then "True" else "False"
  }

  /** Python truthiness: a non-empty str, a non-zero int, True. */
  predicate Truthy(v: Value) {
    match v
    case Str(s) => s != ""
    case Int(i) => i != 0
    case Bool(b) => b
  }

  /** Python's s.split('\n'): the pieces between newlines, always at least one. */
  function SplitLines(s: string): (r: seq<string>)
    ensures |r| >= 1
    decreases |s|
  {
    if s == [] then [""]
    else
      var rest := SplitLines(s[1..]);
      if s[0] == '\n' then [""] + rest else [[s[0]] + rest[0]] + rest[1..]
  }

  /** Splitting a line, a newline and a remainder yields the line followed by the remainder's lines. */
  lemma {:induction false} SplitLinesAfterLine(a: string, b: string)
    requires '\n' !in a
    ensures SplitLines(a + "\n" + b) == [a] + SplitLines(b)
    decreases |a|
  {
    if a == [] {
      assert a + "\n" + b == "\n" + b;
      assert ("\n" + b)[1..] == b;
    } else {
      var s := a + "\n" + b;
      assert s[0] == a[0];
      assert s[1..] == a[1..] + "\n" + b;
      SplitLinesAfterLine(a[1..], b);
      assert [a[0]] + a[1..] == a;
    }
  }

  /** Two single lines, each followed by a newline, then a remainder split into its own lines. */
  lemma SplitTwoLines(a: string, b: string, c: string)
    requires '\n' !in a && '\n' !in b
    ensures SplitLines(a + "\n" + b + "\n" + c) == [a, b] + SplitLines(c)
  {
    assert a + "\n" + b + "\n" + c == a + "\n" + (b + "\n" + c);
    SplitLinesAfterLine(a, b + "\n" + c);
    SplitLinesAfterLine(b, c);
  }
}
