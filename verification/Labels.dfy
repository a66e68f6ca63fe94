/**
 Label codes: what is accepted as a mapping, how training encodes a target column, and how
 inference and the evaluation report turn codes back into labels.
 */
module Labels {
  import opened Wrappers

  // A target cell as loaded.
  datatype Cell = Label(s: string) | Number(r: real) | Missing

  function Codes(m: map<string, int>): set<int> {
    set k | k in m :: m[k]
  }

  // Consecutive codes from zero, one per label.
  predicate LabelMappingOk(m: map<string, int>) {
    && |Codes(m)| == |m|
    && (forall code :: code in Codes(m) ==> 0 <= code < |m|)
    && (forall code :: 0 <= code < |m| ==> code in Codes(m))
  }

  predicate Injective(m: map<string, int>) {
    forall a, b :: a in m && b in m && m[a] == m[b] ==> a == b
  }

  lemma CodesWithout(m: map<string, int>, k: string)
    requires k in m
    ensures Codes(m) == Codes(m - {k}) + {m[k]}
  {
    var rest := m - {k};
    forall c | c in Codes(m) ensures c in Codes(rest) + {m[k]} {
      var a :| a in m && m[a] == c;
      assert a != k ==> a in rest && rest[a] == c;
    }
  }

  lemma InjectiveWith(m: map<string, int>, k: string)
    requires k in m && Injective(m - {k}) && m[k] !in Codes(m - {k})
    ensures Injective(m)
  {
    var rest := m - {k};
    forall a, b | a in m && b in m && m[a] == m[b] ensures a == b {
      assert a != k ==> a in rest && rest[a] in Codes(rest);
      assert b != k ==> b in rest && rest[b] in Codes(rest);
    }
  }

  // As many codes as labels leaves no code shared.
  lemma {:induction false} AllCodesDiffer(m: map<string, int>)
    ensures |Codes(m)| <= |m|
    ensures |Codes(m)| == |m| ==> Injective(m)
    decreases |m|
  {
    hide Codes, Injective;
    if m == map[] {
      NoCodes();
    } else {
      var k :| k in m;
      AllCodesDiffer(m - {k});
      CodesWithout(m, k);
      if |Codes(m)| == |m| {
        InjectiveWith(m, k);
      }
    }
  }

  lemma NoCodes()
    ensures Codes(map[]) == {} && Injective(map[])
  {
  }

  // ---------------------------------------------------------------- encoding

  // Numbers are taken as codes, labels are looked up, anything else is refused.
  function CodeOf(cells: seq<Cell>, m: map<string, int>, i: nat): Option<real>
    requires i < |cells|
  {
    if Numeric(cells) then Some(cells[i].r)
    else if cells[i].Label? && cells[i].s in m then Some(m[cells[i].s] as real)
    else None
  }

  predicate Numeric(cells: seq<Cell>) {
    forall i :: 0 <= i < |cells| ==> cells[i].Number?
  }

  predicate CodeOk(code: Option<real>, classes: nat) {
    code.Some? && code.value == code.value.Floor as real && 0.0 <= code.value < classes as real
  }

  function EncodeTarget(cells: seq<Cell>, m: map<string, int>, classes: nat): Option<seq<int>> {
    if exists i :: 0 <= i < |cells| && cells[i].Missing? then None
    else if exists i :: 0 <= i < |cells| && !CodeOk(CodeOf(cells, m, i), classes) then None
    else Some(seq(|cells|, i requires 0 <= i < |cells| =>
      var code := CodeOf(cells, m, i);
      if code.Some? then code.value.Floor else 0))
  }

  // ---------------------------------------------------------------- decoding

  function Digit(d: nat): char
    requires d < 10
  {
    ['0', '1', '2', '3', '4', '5', '6', '7', '8', '9'][d]
  }

  function Decimal(n: nat): string {
    if n < 10 then [Digit(n)] else Decimal(n / 10) + [Digit(n % 10)]
  }

  function Str(n: int): string {
    if n < 0 then "-" + Decimal(-n) else Decimal(n)
  }

  function Reverse(m: map<string, int>): map<int, string>
    requires Injective(m)
  {
    map k | k in m :: m[k] := k
  }

  // The label inference writes for a predicted code.
  function Decode(m: map<string, int>, code: int): string
    requires Injective(m)
  {
    if code in Reverse(m) then Reverse(m)[code] else Str(code)
  }

  // Whether two labels would get one key in the report's inverse.
  predicate KeysApart(m: map<string, int>) {
    forall a, b :: a in m && b in m && Str(m[a]) == Str(m[b]) ==> a == b
  }

  function ByText(m: map<string, int>): map<string, string>
    requires KeysApart(m)
  {
    map k | k in m :: Str(m[k]) := k
  }

  // The label the confusion matrix shows for a code.
  function ReportLabel(m: map<string, int>, code: int): string
    requires KeysApart(m)
  {
    if Str(code) in ByText(m) then ByText(m)[Str(code)] else Str(code)
  }

  lemma {:induction false} DecimalShape(n: nat)
    ensures |Decimal(n)| >= 1 && Decimal(n)[0] != '-'
    ensures n < 10 <==> |Decimal(n)| == 1
  {
    if n >= 10 {
      DecimalShape(n / 10);
    }
  }

  lemma DigitInjective(a: nat, b: nat)
    requires a < 10 && b < 10 && Digit(a) == Digit(b)
    ensures a == b
  {
  }

  lemma {:induction false} DecimalInjective(a: nat, b: nat)
    requires Decimal(a) == Decimal(b)
    ensures a == b
    decreases a
  {
    DecimalShape(a);
    DecimalShape(b);
    if a < 10 {
      assert Decimal(a)[0] == Digit(a) && Decimal(b)[0] == Digit(b);
      DigitInjective(a, b);
    } else {
      var x, y := Decimal(a), Decimal(b);
      assert x[..|x| - 1] == Decimal(a / 10) && y[..|y| - 1] == Decimal(b / 10);
      assert x[|x| - 1] == Digit(a % 10) && y[|y| - 1] == Digit(b % 10);
      DecimalInjective(a / 10, b / 10);
      DigitInjective(a % 10, b % 10);
    }
  }

  lemma StrSign(n: int)
    ensures |Str(n)| >= 1 && (Str(n)[0] == '-' <==> n < 0)
    ensures Str(n) == if n < 0 then "-" + Decimal(-n) else Decimal(n)
  {
    DecimalShape(if n < 0 then -n else n);
  }

  // Different integers are written differently.
  lemma StrInjective(a: int, b: int)
    requires Str(a) == Str(b)
    ensures a == b
  {
    hide Decimal, Str;
    StrSign(a);
    StrSign(b);
    if a < 0 {
      assert Str(a)[1..] == Decimal(-a) && Str(b)[1..] == Decimal(-b);
      DecimalInjective(-a, -b);
    } else {
      DecimalInjective(a, b);
    }
  }

  lemma AcceptedDecodes(m: map<string, int>)
    requires LabelMappingOk(m)
    ensures Injective(m) && KeysApart(m)
    ensures forall k :: k in m ==> 0 <= m[k] < |m|
  {
    AllCodesDiffer(m);
    forall a, b | a in m && b in m && Str(m[a]) == Str(m[b]) ensures a == b {
      StrInjective(m[a], m[b]);
    }
    assert forall k :: k in m ==> m[k] in Codes(m);
  }

  // ---------------------------------------------------------------- round trips

  // A column of labels is encoded exactly when each is mapped; every code is a class, and both
  // ways back give the labels that went in.
  lemma LabelsRoundTrip(cells: seq<Cell>, m: map<string, int>)
    requires LabelMappingOk(m) && cells != [] && forall i :: 0 <= i < |cells| ==> cells[i].Label?
    ensures Injective(m) && KeysApart(m)
    ensures EncodeTarget(cells, m, |m|).Some? <==> forall i :: 0 <= i < |cells| ==> cells[i].s in m
    ensures EncodeTarget(cells, m, |m|).Some? ==>
      var codes := EncodeTarget(cells, m, |m|).value;
      && |codes| == |cells|
      && forall i :: 0 <= i < |cells| ==>
           && 0 <= codes[i] < |m|
           && Decode(m, codes[i]) == cells[i].s && ReportLabel(m, codes[i]) == cells[i].s
  {
    AcceptedDecodes(m);
    assert !cells[0].Number?;
    forall i | 0 <= i < |cells|
      ensures CodeOk(CodeOf(cells, m, i), |m|) <==> cells[i].s in m
      ensures cells[i].s in m ==> (m[cells[i].s] as real).Floor == m[cells[i].s]
    {
    }
    if EncodeTarget(cells, m, |m|).Some? {
      var codes := EncodeTarget(cells, m, |m|).value;
      forall i | 0 <= i < |cells|
        ensures cells[i].s in m && codes[i] == m[cells[i].s]
      {
        assert CodeOk(CodeOf(cells, m, i), |m|);
      }
      forall i | 0 <= i < |cells|
        ensures Decode(m, codes[i]) == cells[i].s && ReportLabel(m, codes[i]) == cells[i].s
      {
        DecodeCode(m, cells[i].s);
      }
    }
  }

  // A column with a missing cell, or of labels and numbers together, is refused.
  lemma MixedColumnRefused(cells: seq<Cell>, m: map<string, int>, classes: nat, i: nat, j: nat)
    requires i < |cells| && j < |cells| && (cells[i].Missing? || (cells[i].Number? && cells[j].Label?))
    ensures EncodeTarget(cells, m, classes).None?
  {
    if !cells[i].Missing? {
      assert !Numeric(cells);
      assert !CodeOk(CodeOf(cells, m, i), classes);
    }
  }

  lemma DecodeCode(m: map<string, int>, k: string)
    requires Injective(m) && KeysApart(m) && k in m
    ensures Decode(m, m[k]) == k && ReportLabel(m, m[k]) == k
  {
    assert m[k] in Reverse(m);
    assert Str(m[k]) in ByText(m);
  }

  // Every class code decodes to a label that encodes to it.
  lemma CodesRoundTrip(m: map<string, int>, code: int)
    requires LabelMappingOk(m) && 0 <= code < |m|
    ensures Injective(m) && Decode(m, code) in m && m[Decode(m, code)] == code
  {
    AcceptedDecodes(m);
    assert code in Codes(m);
    var k :| k in m && m[k] == code;
    DecodeCode(m, k);
  }

  // Targets that are already codes pass through unchanged, if they are classes.
  lemma CodesPreserved(cells: seq<Cell>, m: map<string, int>, classes: nat)
    requires Numeric(cells)
    ensures EncodeTarget(cells, m, classes).Some? <==>
      forall i :: 0 <= i < |cells| ==> cells[i].r == cells[i].r.Floor as real && 0 <= cells[i].r.Floor < classes
    ensures EncodeTarget(cells, m, classes).Some? ==>
      |EncodeTarget(cells, m, classes).value| == |cells| &&
      forall i :: 0 <= i < |cells| ==> EncodeTarget(cells, m, classes).value[i] as real == cells[i].r
  {
    forall i | 0 <= i < |cells|
      ensures CodeOk(CodeOf(cells, m, i), classes) <==> cells[i].r == cells[i].r.Floor as real && 0 <= cells[i].r.Floor < classes
    {
    }
    if EncodeTarget(cells, m, classes).Some? {
      forall i | 0 <= i < |cells| ensures CodeOk(CodeOf(cells, m, i), classes) {}
    }
  }
}
