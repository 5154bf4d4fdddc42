/** The keys under which machines exchange connection data. */
module Keys {
  import opened Config

  /** std::to_string of a machine id. */
  function Decimal(n: nat): (s: string)
    ensures |s| >= 1
    ensures forall i :: 0 <= i < |s| ==> '0' <= s[i] <= '9'
  {
    var d := [(n % 10) as char + '0'];
    if n < 10 then d else Decimal(n / 10) + d
  }

  function Value(s: string): int {
    if s == [] then 0
    else Value(s[..|s| - 1]) * 10 + (s[|s| - 1] as int - '0' as int)
  }

  lemma {:induction false} DecimalReadsBack(n: nat)
    ensures Value(Decimal(n)) == n
  {
    var s := Decimal(n);
    var d := (n % 10) as char + '0';
    assert s[|s| - 1] == d && d as int - '0' as int == n % 10;
    if n < 10 {
      assert s[..|s| - 1] == [];
    } else {
      DecimalReadsBack(n / 10);
      assert s[..|s| - 1] == Decimal(n / 10);
    }
  }

  const CONN := "IBVerbsConnInfo/"
  const TOKENS := "IBVerbsTokensMsg/"

  function ConnInfoKey(src: nat, dst: nat): string {
    CONN + Decimal(src) + "/" + Decimal(dst)
  }

  /** A 32-bit id printed with its sign. */
  function Decimal32(n: int): (s: string)
    ensures |s| >= 1
    ensures forall i :: 0 <= i < |s| ==> s[i] == '-' || '0' <= s[i] <= '9'
  {
    if n < 0 then "-" + Decimal(-n) else Decimal(n)
  }

  /** The destination id is declared `int`, so it is narrowed to 32 bits. */
  function TokensMsgKey(src: nat, dst: nat): string {
    TOKENS + Decimal(src) + "/" + Decimal32(ToInt32(dst))
  }

  function Value32(s: string): int {
    if s != [] && s[0] == '-' then -Value(s[1..]) else Value(s)
  }

  lemma Decimal32ReadsBack(n: int)
    ensures Value32(Decimal32(n)) == n
  {
    var d := if n < 0 then Decimal(-n) else Decimal(n);
    DecimalReadsBack(if n < 0 then -n else n);
    if n < 0 {
      assert ("-" + d)[1..] == d;
    } else {
      assert '0' <= d[0];
    }
  }

  predicate NoSlash(s: string) {
    forall i :: 0 <= i < |s| ==> s[i] != '/'
  }

  function FirstSlash(s: string): nat {
    if s == [] || s[0] == '/' then 0 else 1 + FirstSlash(s[1..])
  }

  lemma {:induction false} SlashAfter(a: string, b: string)
    requires NoSlash(a)
    ensures FirstSlash(a + "/" + b) == |a|
  {
    if a != [] {
      SlashAfter(a[1..], b);
      assert (a + "/" + b)[1..] == a[1..] + "/" + b;
    }
  }

  /** A slash splits a text in only one way into two parts without slashes. */
  lemma SplitUnique(a: string, b: string, c: string, d: string)
    requires NoSlash(a) && NoSlash(c)
    requires a + "/" + b == c + "/" + d
    ensures a == c && b == d
  {
    SlashAfter(a, b);
    SlashAfter(c, d);
    var t := a + "/" + b;
    assert t[..|a|] == a && (c + "/" + d)[..|c|] == c;
    assert t[|a| + 1..] == b && (c + "/" + d)[|c| + 1..] == d;
  }

  lemma SuffixUnique(prefix: string, a: string, b: string)
    requires prefix + a == prefix + b
    ensures a == b
  {
    assert (prefix + a)[|prefix|..] == a && (prefix + b)[|prefix|..] == b;
  }

  lemma PathUnique(prefix: string, a: string, b: string, c: string, d: string)
    requires NoSlash(a) && NoSlash(c)
    requires prefix + a + "/" + b == prefix + c + "/" + d
    ensures a == c && b == d
  {
    assert prefix + a + "/" + b == prefix + (a + "/" + b);
    assert prefix + c + "/" + d == prefix + (c + "/" + d);
    SuffixUnique(prefix, a + "/" + b, c + "/" + d);
    SplitUnique(a, b, c, d);
  }

  lemma ConnInfoKeyInjective(a: nat, b: nat, c: nat, d: nat)
    ensures ConnInfoKey(a, b) == ConnInfoKey(c, d) <==> a == c && b == d
  {
    if ConnInfoKey(a, b) == ConnInfoKey(c, d) {
      PathUnique(CONN, Decimal(a), Decimal(b), Decimal(c), Decimal(d));
      DecimalReadsBack(a);
      DecimalReadsBack(b);
      DecimalReadsBack(c);
      DecimalReadsBack(d);
    }
  }

  /** The text of a key: the prefix, then two parts with a slash between them. */
  predicate Reads(key: string, prefix: string, src: int, dst: int) {
    && prefix <= key
    && var path := key[|prefix|..];
       && FirstSlash(path) < |path|
       && Value(path[..FirstSlash(path)]) == src
       && Value32(path[FirstSlash(path) + 1..]) == dst
  }

  lemma PathReads(prefix: string, a: string, b: string)
    requires NoSlash(a)
    ensures Reads(prefix + a + "/" + b, prefix, Value(a), Value32(b))
  {
    SlashAfter(a, b);
    var path := a + "/" + b;
    assert prefix + a + "/" + b == prefix + path;
    assert (prefix + path)[|prefix|..] == path;
    assert path[..|a|] == a && path[|a| + 1..] == b;
  }

  /** A connection key names its source before the slash and its destination after it. */
  lemma ConnInfoKeyReads(a: nat, b: nat)
    ensures Reads(ConnInfoKey(a, b), "IBVerbsConnInfo/", a, b)
  {
    PathReads(CONN, Decimal(a), Decimal(b));
    DecimalReadsBack(a);
    Decimal32ReadsBack(b);
  }

  /** So does a token key, with the destination narrowed. */
  lemma TokensMsgKeyReads(a: nat, b: nat)
    ensures Reads(TokensMsgKey(a, b), "IBVerbsTokensMsg/", a, ToInt32(b))
  {
    PathReads(TOKENS, Decimal(a), Decimal32(ToInt32(b)));
    DecimalReadsBack(a);
    Decimal32ReadsBack(ToInt32(b));
  }

  /** No leading zeros, so the digits are the only ones with this value. */
  lemma {:induction false} DecimalIsCanonical(n: nat)
    ensures |Decimal(n)| > 1 ==> Decimal(n)[0] != '0'
  {
    if n >= 10 {
      var d := (n % 10) as char + '0';
      assert Decimal(n) == Decimal(n / 10) + [d];
      DecimalIsCanonical(n / 10);
      if n / 10 < 10 {
        assert Decimal(n / 10)[0] == (n / 10 % 10) as char + '0';
      }
    }
  }

  lemma NarrowEqual(b: nat, d: nat)
    ensures ToInt32(b) == ToInt32(d) <==> b % U32 == d % U32
  {
    var x, y := b % U32, d % U32;
    assert 0 <= x < U32 && 0 <= y < U32;
  }

  /** Two token keys are equal exactly when the sources are equal and the destinations
      agree in their low 32 bits; for ids that fit an int that is equality. */
  lemma TokensMsgKeyCollides(a: nat, b: nat, c: nat, d: nat)
    ensures TokensMsgKey(a, b) == TokensMsgKey(c, d) <==> a == c && b % U32 == d % U32
  {
    NarrowEqual(b, d);
    if TokensMsgKey(a, b) == TokensMsgKey(c, d) {
      PathUnique(TOKENS, Decimal(a), Decimal32(ToInt32(b)), Decimal(c), Decimal32(ToInt32(d)));
      DecimalReadsBack(a);
      DecimalReadsBack(c);
      Decimal32ReadsBack(ToInt32(b));
      Decimal32ReadsBack(ToInt32(d));
    }
  }

  lemma KindsNeverCollide(a: nat, b: nat, c: nat, d: nat)
    ensures ConnInfoKey(a, b) != TokensMsgKey(c, d)
  {
    assert ConnInfoKey(a, b)[7] == CONN[7] == 'C';
    assert TokensMsgKey(c, d)[7] == TOKENS[7] == 'T';
  }
}
