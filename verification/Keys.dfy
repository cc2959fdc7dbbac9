/**
 Length-prefixed keys. Strings are taken as their UTF-8 bytes, one `char` per byte, because the length
 in a key is a byte length.
 */
module Keys {
  function Digit(d: nat): char
    requires d < 10
  {
    "0123456789"[d]
  }

  predicate IsDigit(c: char) { '0' <= c <= '9' }

  function Decimal(n: nat): (r: string)
    ensures r != "" && forall c | c in r :: IsDigit(c)
    ensures |r| == 1 <==> n < 10
  {
    if n < 10 then [Digit(n)] else Decimal(n / 10) + [Digit(n % 10)]
  }

  lemma {:induction false} DecimalInjective(m: nat, n: nat)
    requires Decimal(m) == Decimal(n)
    ensures m == n
  {
    var a, b := Decimal(m), Decimal(n);
    assert a[|a| - 1] == Digit(m % 10) && b[|b| - 1] == Digit(n % 10);
    if m >= 10 && n >= 10 {
      assert Decimal(m / 10) == a[..|a| - 1] && Decimal(n / 10) == b[..|b| - 1];
      DecimalInjective(m / 10, n / 10);
    }
  }

  /** Digits end where a separator begins. */
  lemma PrefixSplits(xs: string, ys: string, sep: char, u: string, v: string)
    requires (forall c | c in xs :: IsDigit(c)) && (forall c | c in ys :: IsDigit(c)) && !IsDigit(sep)
    requires xs + [sep] + u == ys + [sep] + v
    ensures xs == ys && u == v
  {
    var s, t := xs + [sep] + u, ys + [sep] + v;
    assert s[|xs|] == sep && forall i | 0 <= i < |xs| :: IsDigit(s[i]);
    assert t[|ys|] == sep && forall i | 0 <= i < |ys| :: IsDigit(t[i]);
    assert |xs| == |ys|;
    assert xs == s[..|xs|] && ys == t[..|ys|];
    assert u == s[|xs| + 1..] && v == t[|ys| + 1..];
  }

  /** A component with its length in front. */
  function Prefixed(component: string, sep: char, rest: string): string {
    Decimal(|component|) + [sep] + (component + rest)
  }

  lemma PrefixedInjective(a: string, x: string, b: string, y: string, sep: char)
    requires !IsDigit(sep) && Prefixed(a, sep, x) == Prefixed(b, sep, y)
    ensures a == b && x == y
  {
    PrefixSplits(Decimal(|a|), Decimal(|b|), sep, a + x, b + y);
    DecimalInjective(|a|, |b|);
    assert a == (a + x)[..|a|] && b == (b + y)[..|b|];
    assert x == (a + x)[|a|..] && y == (b + y)[|b|..];
  }

  function ScopedApprovalKey(chat: string, call: string, capability: string): string {
    "agent-server-approval-v1/"
    + Prefixed(chat, '/', "/" + Prefixed(call, '/', "/" + capability))
  }

  function RedisKey(chat: string, call: string): string {
    "agent_server:pending_approval:" + Prefixed(chat, ':', ":" + Prefixed(call, ':', ""))
  }

  lemma DropPrefix(p: string, u: string, v: string)
    requires p + u == p + v
    ensures u == v
  {
    assert u == (p + u)[|p|..] && v == (p + v)[|p|..];
  }

  /** Different (chat, call, capability) never share a key, whatever separators they contain. */
  lemma ScopedApprovalKeyInjective(
    chat: string, call: string, capability: string, chat': string, call': string, capability': string)
    requires ScopedApprovalKey(chat, call, capability) == ScopedApprovalKey(chat', call', capability')
    ensures chat == chat' && call == call' && capability == capability'
  {
    var inner, inner' := Prefixed(call, '/', "/" + capability), Prefixed(call', '/', "/" + capability');
    DropPrefix("agent-server-approval-v1/", Prefixed(chat, '/', "/" + inner), Prefixed(chat', '/', "/" + inner'));
    PrefixedInjective(chat, "/" + inner, chat', "/" + inner', '/');
    DropPrefix("/", inner, inner');
    PrefixedInjective(call, "/" + capability, call', "/" + capability', '/');
    DropPrefix("/", capability, capability');
  }

  lemma RedisKeyInjective(chat: string, call: string, chat': string, call': string)
    requires RedisKey(chat, call) == RedisKey(chat', call')
    ensures chat == chat' && call == call'
  {
    var inner, inner' := Prefixed(call, ':', ""), Prefixed(call', ':', "");
    DropPrefix("agent_server:pending_approval:", Prefixed(chat, ':', ":" + inner), Prefixed(chat', ':', ":" + inner'));
    PrefixedInjective(chat, ":" + inner, chat', ":" + inner', ':');
    DropPrefix(":", inner, inner');
    PrefixedInjective(call, "", call', "", ':');
  }
}
