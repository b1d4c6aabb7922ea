// The string helpers both keypad.c and pendant.c define (identically):
// `strrepl`, which replaces every occurrence of a placeholder character,
// rightmost first, and `jog_command`, which prefixes an axis template with
// "$J=G91G21" (incremental, millimetre jog). Here they are defined once.
module JogText {
  import opened Grbl

  const JOG_PREFIX: string := "$J=G91G21"

  /** Every occurrence of c in s replaced by rep: what strrepl should yield. */
  function ReplaceAll(s: string, c: char, rep: string): (r: string)
    decreases |s|
  {
    if s == [] then []
    else (if s[0] == c then rep else [s[0]]) + ReplaceAll(s[1..], c, rep)
  }

  lemma {:induction false} ReplaceAllConcat(a: string, b: string, c: char, rep: string)
    ensures ReplaceAll(a + b, c, rep) == ReplaceAll(a, c, rep) + ReplaceAll(b, c, rep)
    decreases |a|
  {
    if a == [] {
      assert a + b == b;
    } else {
      assert (a + b)[1..] == a[1..] + b;
      ReplaceAllConcat(a[1..], b, c, rep);
    }
  }

  /** A string without the placeholder is left as it is. */
  lemma {:induction false} ReplaceAllIdentity(s: string, c: char, rep: string)
    requires c !in s
    ensures ReplaceAll(s, c, rep) == s
    decreases |s|
  {
    if s != [] {
      ReplaceAllIdentity(s[1..], c, rep);
    }
  }

  /** No placeholder survives when the replacement holds none. */
  lemma {:induction false} ReplaceAllRemoves(s: string, c: char, rep: string)
    requires c !in rep
    ensures c !in ReplaceAll(s, c, rep)
    decreases |s|
  {
    if s != [] {
      ReplaceAllRemoves(s[1..], c, rep);
    }
  }

  /** strrchr: the index of the last c in s, or -1 when there is none. */
  function LastIndex(s: string, c: char): (r: int)
    ensures -1 <= r < |s|
    ensures r >= 0 ==> s[r] == c && c !in s[r + 1..]
    ensures r < 0 <==> c !in s
    decreases |s|
  {
    if s == [] then -1
    else if s[|s| - 1] == c then |s| - 1
    else
      var r := LastIndex(s[..|s| - 1], c);
      assert s == s[..|s| - 1] + [s[|s| - 1]];
      r
  }

  /** A placeholder found by strrchr lies in front of every replaced suffix. */
  lemma LastIndexBeforeSuffix(p: string, x: string, c: char)
    requires c !in x
    ensures LastIndex(p + x, c) < |p|
  {
    forall j | |p| <= j < |p + x|
      ensures (p + x)[j] != c
    {
      assert (p + x)[j] == x[j - |p|];
    }
  }

  /** One pass of strrepl's loop: splicing the replacement in at the last
      placeholder s extends the replaced suffix from k down to s. */
  lemma SpliceStep(str: string, k: nat, s: nat, c: char, rep: string, r: string)
    requires s < k <= |str|
    requires r == str[..k] + ReplaceAll(str[k..], c, rep)
    requires r[s] == c && c !in r[s + 1..]
    requires c !in rep
    ensures r[..s] + rep + r[s + 1..] == str[..s] + ReplaceAll(str[s..], c, rep)
    ensures c !in ReplaceAll(str[s..], c, rep)
  {
    var tail := ReplaceAll(str[k..], c, rep);
    assert r[..s] == str[..s];
    assert r[s + 1..] == str[s + 1..k] + tail;
    assert str[s] == c;
    assert c !in str[s + 1..k] by {
      assert str[s + 1..k] == r[s + 1..k];
    }
    assert str[s..] == [str[s]] + (str[s + 1..k] + str[k..]);
    ReplaceAllConcat([str[s]], str[s + 1..k] + str[k..], c, rep);
    ReplaceAllConcat(str[s + 1..k], str[k..], c, rep);
    ReplaceAllIdentity(str[s + 1..k], c, rep);
    assert ReplaceAll([str[s]], c, rep) == rep + ReplaceAll([], c, rep);
    ReplaceAllRemoves(str[s..], c, rep);
  }

  /** strrepl: find the last placeholder, splice the replacement in there,
      and search the whole string again, until no placeholder is left.
      The source loops for ever when the replacement itself holds the
      placeholder; its callers pass formatted numbers, which never do. */
  method Strrepl(str: string, c: char, rep: string) returns (r: string)
    requires c !in rep
    ensures r == ReplaceAll(str, c, rep)
    ensures c !in r
  {
    r := str;
    var s := LastIndex(r, c);
    ghost var k := |str|;
    assert str[k..] == [];
    while s >= 0
      invariant 0 <= k <= |str|
      invariant r == str[..k] + ReplaceAll(str[k..], c, rep)
      invariant c !in ReplaceAll(str[k..], c, rep)
      invariant s == LastIndex(r, c)
      invariant s < k
      decreases s + 1
    {
      SpliceStep(str, k, s, c, rep, r);
      // splice the replacement in at s
      r := r[..s] + rep + r[s + 1..];
      k := s;
      LastIndexBeforeSuffix(str[..k], ReplaceAll(str[k..], c, rep), c);
      s := LastIndex(r, c);
    }
    assert c !in str[..k];
    ReplaceAllIdentity(str[..k], c, rep);
    ReplaceAllConcat(str[..k], str[k..], c, rep);
    assert str[..k] + str[k..] == str;
  }

  /** jog_command: the jog prefix followed by the axis template. */
  function JogCommand(to: string): (cmd: string)
    ensures IsJogCommand(cmd)
    ensures ('?' in cmd) == ('?' in to)
  {
    var cmd := JOG_PREFIX + to;
    assert forall i | |JOG_PREFIX| <= i < |cmd| :: cmd[i] == to[i - |JOG_PREFIX|];
    cmd
  }

  /** The test `command[0] == '$' && command[1] == 'J'`. */
  predicate IsJogCommand(cmd: string) {
    |cmd| >= 2 && cmd[0] == '$' && cmd[1] == 'J'
  }

  /** A finished jog line: the template's placeholders replaced by the
      distance, then the speed appended after the template's trailing 'F'. */
  function JogLine(template: string, distance: Numeral, speed: Numeral): (line: string)
    ensures |line| >= |speed| && line[|line| - |speed|..] == speed
  {
    ReplaceAll(JogCommand(template), '?', distance) + speed
  }

  lemma NumeralHasNoPlaceholder(n: Numeral)
    ensures '?' !in n
  {
    forall i | 0 <= i < |n|
      ensures n[i] != '?'
    {
      assert IsNumeralChar(n[i]);
    }
  }

  /** A jog line is the prefix, the template with the distance substituted,
      and the speed; it holds no placeholder and is recognised as a jog. */
  lemma JogLineShape(template: string, distance: Numeral, speed: Numeral)
    ensures JogLine(template, distance, speed)
         == JOG_PREFIX + ReplaceAll(template, '?', distance) + speed
    ensures '?' !in JogLine(template, distance, speed)
    ensures IsJogCommand(JogLine(template, distance, speed))
  {
    ReplaceAllConcat(JOG_PREFIX, template, '?', distance);
    ReplaceAllIdentity(JOG_PREFIX, '?', distance);
    NumeralHasNoPlaceholder(distance);
    NumeralHasNoPlaceholder(speed);
    ReplaceAllRemoves(JogCommand(template), '?', distance);
  }
}
