/** toPosStr of web/src/ui/board/board-state.ts:43-45: positions as comma-separated decimals. */
module PosStr {
  import opened Components

  function Digit(d: nat): (c: char)
    requires d < 10
    ensures c != ',' && c != '-'
  {
    ('0' as int + d) as char
  }

  function NatStr(n: nat): string
  {
    if n < 10 then [Digit(n)] else NatStr(n / 10) + [Digit(n % 10)]
  }

  function IntStr(i: int): string
  {
    if i < 0 then "-" + NatStr(-i) else NatStr(i)
  }

  function ToPosStr(pos: Cell): string
  {
    IntStr(pos.x) + "," + IntStr(pos.y) + "," + IntStr(pos.z)
  }

  lemma {:induction false} NatStrShape(n: nat)
    ensures NatStr(n) != []
    ensures forall i :: 0 <= i < |NatStr(n)| ==> NatStr(n)[i] != ',' && NatStr(n)[i] != '-'
    ensures n >= 10 ==> |NatStr(n)| >= 2
  {
    if n >= 10 {
      NatStrShape(n / 10);
    }
  }

  lemma {:induction false} NatStrInjective(m: nat, n: nat)
    requires NatStr(m) == NatStr(n)
    ensures m == n
  {
    NatStrShape(m);
    NatStrShape(n);
    if m >= 10 && n >= 10 {
      var s := NatStr(m);
      assert s[..|s| - 1] == NatStr(m / 10) == NatStr(n / 10);
      assert s[|s| - 1] == Digit(m % 10) == Digit(n % 10);
      NatStrInjective(m / 10, n / 10);
    }
  }

  lemma IntStrInjective(i: int, j: int)
    requires IntStr(i) == IntStr(j)
    ensures i == j
  {
    NatStrShape(if i < 0 then -i else i);
    NatStrShape(if j < 0 then -j else j);
    assert i < 0 <==> IntStr(i)[0] == '-';
    assert j < 0 <==> IntStr(j)[0] == '-';
    if i < 0 {
      assert IntStr(i)[1..] == NatStr(-i) && IntStr(j)[1..] == NatStr(-j);
      NatStrInjective(-i, -j);
    } else {
      NatStrInjective(i, j);
    }
  }

  ghost predicate NoComma(s: string)
  {
    forall i :: 0 <= i < |s| ==> s[i] != ','
  }

  lemma IntStrNoComma(i: int)
    ensures NoComma(IntStr(i))
  {
    NatStrShape(if i < 0 then -i else i);
  }

  /** The first comma of a joined string tells where the first part ends. */
  lemma SplitAtComma(a: string, b: string, a': string, b': string)
    requires a + "," + b == a' + "," + b' && NoComma(a) && NoComma(a')
    ensures a == a' && b == b'
  {
    var s := a + "," + b;
    assert s[|a|] == ',' && s[|a'|] == ',';
    assert forall i :: 0 <= i < |a| ==> s[i] == a[i];
    assert forall i :: 0 <= i < |a'| ==> s[i] == a'[i];
    assert |a| == |a'|;
    assert s[..|a|] == a && s[..|a'|] == a';
    assert s[|a| + 1..] == b && s[|a'| + 1..] == b';
  }

  /** Different integer positions never share a key. */
  lemma ToPosStrInjective(p: Cell, q: Cell)
    ensures ToPosStr(p) == ToPosStr(q) <==> p == q
  {
    if ToPosStr(p) == ToPosStr(q) {
      IntStrNoComma(p.x);
      IntStrNoComma(q.x);
      IntStrNoComma(p.y);
      IntStrNoComma(q.y);
      var pyz, qyz := IntStr(p.y) + "," + IntStr(p.z), IntStr(q.y) + "," + IntStr(q.z);
      assert ToPosStr(p) == IntStr(p.x) + "," + pyz;
      assert ToPosStr(q) == IntStr(q.x) + "," + qyz;
      SplitAtComma(IntStr(p.x), pyz, IntStr(q.x), qyz);
      SplitAtComma(IntStr(p.y), IntStr(p.z), IntStr(q.y), IntStr(q.z));
      IntStrInjective(p.x, q.x);
      IntStrInjective(p.y, q.y);
      IntStrInjective(p.z, q.z);
    }
  }
}
