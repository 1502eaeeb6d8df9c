/** The remote call primitive of `BasePeripheral` (subapis/peripheral.py:10-20).

    A device handle is a target expression plus a tuple of prepended parameters.
    Every call on it evaluates `return <expr>(...)` with the argument list
    `prepend ++ [encode(name)] ++ params`. */
module Calls {
  import opened Wire

  /** `BasePeripheral.__init__`: immutable once built. */
  datatype Handle = Handle(expr: string, prepend: seq<Arg>)

  /** The code string `_method` sends for a target expression. */
  function Code(expr: string): string
  {
    "return " + expr + "(...)"
  }

  /** The request evaluating the handle's target with `nameArg` as the method-name argument. */
  function CallRequest(h: Handle, nameArg: Arg, params: seq<Arg>): (r: Request)
    ensures r.Eval? && r.code == Code(h.expr)
    ensures |r.args| == |h.prepend| + 1 + |params|
  {
    Eval(Code(h.expr), h.prepend + [nameArg] + params)
  }

  /** `BasePeripheral._method(name, *params)`: the request one call sends. */
  function MethodRequest(h: Handle, name: string, params: seq<Arg>): (r: Request)
    ensures r.Eval? && r.code == Code(h.expr)
    ensures |r.args| == |h.prepend| + 1 + |params|
    ensures r.args[..|h.prepend|] == h.prepend
    ensures r.args[|h.prepend|] == Encoded(name)
    ensures r.args[|h.prepend| + 1..] == params
  {
    CallRequest(h, Encoded(name), params)
  }

  /** Two target expressions that yield the same code string are the same expression. */
  lemma CodeInjective(e1: string, e2: string)
    requires Code(e1) == Code(e2)
    ensures e1 == e2
  {
    var c1, c2 := Code(e1), Code(e2);
    assert |e1| == |e2|;
    forall i | 0 <= i < |e1|
      ensures e1[i] == e2[i]
    {
      assert e1[i] == c1[7 + i];
      assert e2[i] == c2[7 + i];
    }
  }

  /** Reads back, for a known handle, the method name and caller parameters of a request. */
  function ParseMethodCall(h: Handle, r: Request): Option<(string, seq<Arg>)>
  {
    var n := |h.prepend|;
    if r.Eval? && r.code == Code(h.expr) && |r.args| > n
       && r.args[..n] == h.prepend && r.args[n].Encoded?
    then Some((r.args[n].text, r.args[n + 1..]))
    else None
  }

  /** Reading back a request recovers exactly the name and parameters of the call. */
  lemma ParseInvertsMethodRequest(h: Handle, name: string, params: seq<Arg>)
    ensures ParseMethodCall(h, MethodRequest(h, name, params)) == Some((name, params))
  {
  }

  /** Every request the reader accepts is the one `_method` sends for what it reads. */
  lemma ParseOnlyMethodRequests(h: Handle, r: Request)
    requires ParseMethodCall(h, r).Some?
    ensures var (name, params) := ParseMethodCall(h, r).value;
            r == MethodRequest(h, name, params)
  {
  }

  /** Handles with prepend tuples of the same length send equal requests only for equal
      handles, names and parameters. */
  lemma MethodRequestInjective(h1: Handle, n1: string, p1: seq<Arg>, h2: Handle, n2: string, p2: seq<Arg>)
    requires |h1.prepend| == |h2.prepend|
    requires MethodRequest(h1, n1, p1) == MethodRequest(h2, n2, p2)
    ensures h1 == h2 && n1 == n2 && p1 == p2
  {
    CodeInjective(h1.expr, h2.expr);
    var r := MethodRequest(h1, n1, p1);
    assert r.args[|h1.prepend|] == Encoded(n1) == Encoded(n2);
  }
}
