/**
 * How the signup route picks the key it rate-limits on: the client address taken
 * from forwarding headers, first non-empty candidate wins, "unknown" otherwise.
 */
module ClientIdentity {
  import opened Common

  /** Request headers, keyed by lower-case header name (`Headers.get` ignores case). */
  type Headers = map<string, string>

  const ForwardedFor: string := "x-forwarded-for"
  const RealIp: string := "x-real-ip"
  const ClientIp: string := "x-client-ip"
  const Fallback: string := "unknown"

  /** `headers.get(name)`: the value, or nothing when the header was not sent. */
  function Header(h: Headers, name: string): Option<string> {
    if name in h then Some(h[name]) else None
  }

  /** The characters JavaScript's `String.prototype.trim` removes: WhiteSpace and LineTerminator. */
  predicate IsTrimmable(c: char) {
    var n := c as int;
    n == 0x09 || n == 0x0A || n == 0x0B || n == 0x0C || n == 0x0D || n == 0x20
    || n == 0xA0 || n == 0x1680 || (0x2000 <= n <= 0x200A) || n == 0x2028 || n == 0x2029
    || n == 0x202F || n == 0x205F || n == 0x3000 || n == 0xFEFF
  }

  /** `s.split(',')[0]`: everything before the first comma, or all of `s` when it has none. */
  function LeadingField(s: string): (r: string)
    ensures r <= s
    ensures ',' !in r
    ensures |r| < |s| ==> s[|r|] == ','
  {
    if s == [] || s[0] == ',' then [] else [s[0]] + LeadingField(s[1..])
  }

  /** The first index at or after `i` that holds a non-trimmable character, or `|s|`. */
  function TrimStart(s: string, i: nat): (n: nat)
    requires i <= |s|
    ensures i <= n <= |s|
    ensures forall k :: i <= k < n ==> IsTrimmable(s[k])
    ensures n < |s| ==> !IsTrimmable(s[n])
    decreases |s| - i
  {
    if i < |s| && IsTrimmable(s[i]) then TrimStart(s, i + 1) else i
  }

  /** The end, at most `j` and at least `lo`, of `s[lo..j]` once trailing trimmable characters are dropped. */
  function TrimEnd(s: string, lo: nat, j: nat): (n: nat)
    requires lo <= j <= |s|
    ensures lo <= n <= j
    ensures forall k :: n <= k < j ==> IsTrimmable(s[k])
    ensures n > lo ==> !IsTrimmable(s[n - 1])
    decreases j - lo
  {
    if j > lo && IsTrimmable(s[j - 1]) then TrimEnd(s, lo, j - 1) else j
  }

  /** `s.trim()`: the slice of `s` left once trimmable characters are removed at both ends. */
  function Trim(s: string): (r: string)
    ensures r != [] ==> !IsTrimmable(r[0]) && !IsTrimmable(r[|r| - 1])
    ensures r == [] <==> forall k :: 0 <= k < |s| ==> IsTrimmable(s[k])
    ensures var a := TrimStart(s, 0); a + |r| <= |s| && r == s[a..a + |r|]
    ensures var a := TrimStart(s, 0); forall k :: a + |r| <= k < |s| ==> IsTrimmable(s[k])
  {
    var a := TrimStart(s, 0);
    var b := TrimEnd(s, a, |s|);
    s[a..b]
  }

  /** `forwarded?.split(',')[0]?.trim()`: the first address of the forwarding chain. */
  function ForwardedClient(h: Headers): Option<string> {
    match Header(h, ForwardedFor)
    case None => None
    case Some(v) => Some(Trim(LeadingField(v)))
  }

  /** JavaScript truthiness of an optional string: present and not empty. */
  predicate Truthy(o: Option<string>) {
    o.Some? && o.value != []
  }

  /** `a || b` on an optional string and a string. */
  function OrElse(a: Option<string>, b: string): string {
    if Truthy(a) then a.value else b
  }

  /** `getClientIdentifier`: the rate-limit key of a request. */
  function ClientIdentifier(h: Headers): (id: string)
    ensures id != []
  {
    OrElse(ForwardedClient(h), OrElse(Header(h, RealIp), OrElse(Header(h, ClientIp), Fallback)))
  }

  /** The three header-derived candidates, in the order they are tried. */
  function Candidates(h: Headers): (c: seq<Option<string>>)
    ensures |c| == 3
  {
    [ForwardedClient(h), Header(h, RealIp), Header(h, ClientIp)]
  }

  /**
   * First match wins: the identifier is the first truthy candidate, and the
   * fallback exactly when no candidate is truthy.
   */
  lemma ClientIdentifierIsFirstTruthy(h: Headers)
    ensures var c, id := Candidates(h), ClientIdentifier(h);
      || (exists i :: 0 <= i < 3 && Truthy(c[i]) && id == c[i].value
                      && forall j :: 0 <= j < i ==> !Truthy(c[j]))
      || ((forall j :: 0 <= j < 3 ==> !Truthy(c[j])) && id == Fallback)
  {
    var c, id := Candidates(h), ClientIdentifier(h);
    if Truthy(c[0]) {
      assert 0 <= 0 < 3 && Truthy(c[0]) && id == c[0].value;
    } else if Truthy(c[1]) {
      assert 0 <= 1 < 3 && Truthy(c[1]) && id == c[1].value && forall j :: 0 <= j < 1 ==> !Truthy(c[j]);
    } else if Truthy(c[2]) {
      assert 0 <= 2 < 3 && Truthy(c[2]) && id == c[2].value && forall j :: 0 <= j < 2 ==> !Truthy(c[j]);
    }
  }

  /**
   * When the forwarding chain supplies the key, the key is its first field, trimmed.
   */
  lemma ForwardedKeyIsLeadingField(h: Headers)
    requires Truthy(ForwardedClient(h))
    ensures ForwardedFor in h && ClientIdentifier(h) == Trim(LeadingField(h[ForwardedFor]))
  {
  }

  /** The trimmed first field of a header value has no comma and no trimmable ends. */
  lemma LeadingAddressShape(v: string)
    ensures var id := Trim(LeadingField(v));
      && ',' !in id
      && (id != [] ==> !IsTrimmable(id[0]) && !IsTrimmable(id[|id| - 1]))
  {
  }

  /** A forwarding header whose first field is blank does not win: the next candidate decides. */
  lemma BlankForwardedFallsThrough(h: Headers)
    requires ForwardedFor in h
    requires forall k :: 0 <= k < |LeadingField(h[ForwardedFor])| ==> IsTrimmable(LeadingField(h[ForwardedFor])[k])
    ensures ClientIdentifier(h) == OrElse(Header(h, RealIp), OrElse(Header(h, ClientIp), Fallback))
  {
  }

  /** The first field of `a,b` is `a` whenever `a` has no comma. */
  lemma {:induction false} LeadingFieldOfJoin(a: string, b: string)
    requires ',' !in a
    ensures LeadingField(a + [','] + b) == a
  {
    if a != [] {
      assert (a + [','] + b)[1..] == a[1..] + [','] + b;
      LeadingFieldOfJoin(a[1..], b);
    }
  }

  /** Trimming a string that already has non-trimmable ends changes nothing. */
  lemma TrimmedAlready(s: string)
    requires s != [] && !IsTrimmable(s[0]) && !IsTrimmable(s[|s| - 1])
    ensures Trim(s) == s
  {
    assert TrimStart(s, 0) == 0;
    assert TrimEnd(s, 0, |s|) == |s|;
  }

  /**
   * A chain `a,rest` whose first address `a` is comma-free and already trimmed
   * gives the key `a` (so `1.2.3.4, 5.6.7.8` gives `1.2.3.4`).
   */
  lemma FirstAddressOfChain(h: Headers, a: string, rest: string)
    requires h == map[ForwardedFor := a + [','] + rest]
    requires a != [] && ',' !in a && !IsTrimmable(a[0]) && !IsTrimmable(a[|a| - 1])
    ensures ClientIdentifier(h) == a
  {
    LeadingFieldOfJoin(a, rest);
    TrimmedAlready(a);
    ForwardedKeyIsLeadingField(h);
  }

  /** No relevant header gives the fallback key. */
  lemma NoHeadersExample()
    ensures ClientIdentifier(map[]) == Fallback
  {
  }
}
