/**
 * Message-template rendering as the logger performs it for the templates of
 * src/Commanding/LogHandler.cs: each `{Hole}` is replaced, left to right, by
 * the next argument. A hole whose argument list has run out, or a `{` without
 * a closing `}`, is kept as text.
 */
module Templates {

  /** The index of the first `}` in s, or |s| when there is none. */
  function CloseIndex(s: string): (i: nat)
    ensures i <= |s|
    ensures i < |s| ==> s[i] == '}'
    ensures forall j :: 0 <= j < i ==> s[j] != '}'
    decreases |s|
  {
    if s == [] || s[0] == '}' then 0 else 1 + CloseIndex(s[1..])
  }

  function Render(t: string, args: seq<string>): string
    decreases |t|
  {
    if t == [] then []
    else if t[0] == '{' && CloseIndex(t[1..]) < |t| - 1 && args != [] then
      args[0] + Render(t[CloseIndex(t[1..]) + 2..], args[1..])
    else [t[0]] + Render(t[1..], args)
  }

  /** Text without holes renders as itself. */
  lemma {:induction false} RenderText(a: string, b: string, args: seq<string>)
    requires '{' !in a
    ensures Render(a + b, args) == a + Render(b, args)
    decreases |a|
  {
    if a == [] {
      assert a + b == b;
    } else {
      assert (a + b)[0] == a[0];
      assert (a + b)[1..] == a[1..] + b;
      RenderText(a[1..], b, args);
      assert a == [a[0]] + a[1..];
    }
  }

  /** A hole renders as the next argument. */
  lemma RenderHole(hole: string, b: string, args: seq<string>)
    requires '}' !in hole
    requires args != []
    ensures Render("{" + hole + "}" + b, args) == args[0] + Render(b, args[1..])
  {
    var t := "{" + hole + "}" + b;
    assert t[1..] == hole + "}" + b;
    assert t[1..][|hole|] == '}';
    assert CloseIndex(t[1..]) == |hole|;
    assert t[|hole| + 2..] == b;
  }
}
