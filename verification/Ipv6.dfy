/**
 The text form of IPv6 addresses: expanding a literal into its eight 16-bit groups, and the IPv4
 destination some addresses embed. `Numeral` stands for the host's reading of a decimal number.
 */
module Ipv6 {
  import opened Options
  import opened Text

  type Numeral = string -> Option<int>

  // ---------------------------------------------------------------- strings

  function IndexOf(s: string, c: char): (i: nat)
    ensures i <= |s| && (forall k :: 0 <= k < i ==> s[k] != c) && (i < |s| ==> s[i] == c)
  {
    if s == "" || s[0] == c then 0 else 1 + IndexOf(s[1..], c)
  }

  /** One past the last `c`, or 0. */
  function AfterLast(s: string, c: char): (i: nat)
    ensures i <= |s| && (forall k :: i <= k < |s| ==> s[k] != c) && (i > 0 ==> s[i - 1] == c)
  {
    if s == "" then 0 else if s[|s| - 1] == c then |s| else AfterLast(s[..|s| - 1], c)
  }

  function Split(s: string, c: char): (parts: seq<string>)
    ensures parts != []
  {
    if s == "" then [""]
    else
      var rest := Split(s[1..], c);
      if s[0] == c then [""] + rest else [[s[0]] + rest[0]] + rest[1..]
  }

  /** Cut at each `::`, the leftmost first. */
  function SplitDouble(s: string): (parts: seq<string>)
    ensures parts != []
  {
    if s == "" then [""]
    else if |s| >= 2 && s[0] == ':' && s[1] == ':' then [""] + SplitDouble(s[2..])
    else
      var rest := SplitDouble(s[1..]);
      [[s[0]] + rest[0]] + rest[1..]
  }

  // ---------------------------------------------------------------- numbers

  function HexDigit(c: char): Option<nat> {
    if '0' <= c <= '9' then Some((c - '0') as nat) else if 'a' <= c <= 'f' then Some((c - 'a') as nat + 10) else None
  }

  predicate IsHex(s: string) {
    forall i :: 0 <= i < |s| ==> HexDigit(s[i]).Some?
  }

  predicate IsGroup(s: string) {
    1 <= |s| <= 4 && IsHex(s)
  }

  function HexValue(s: string): nat
    requires IsHex(s)
  {
    if s == "" then 0 else HexValue(s[..|s| - 1]) * 16 + HexDigit(s[|s| - 1]).value
  }

  function DigitOf(n: nat): char
    requires n < 16
  {
    if n < 10 then '0' + n as char else 'a' + (n - 10) as char
  }

  /** Shortest lower-case hexadecimal. */
  function Hex(n: nat): string {
    if n < 16 then [DigitOf(n)] else Hex(n / 16) + [DigitOf(n % 16)]
  }

  predicate IsDecimal(s: string) {
    s != "" && forall i :: 0 <= i < |s| ==> '0' <= s[i] <= '9'
  }

  function DecimalValue(s: string): nat
    requires forall i :: 0 <= i < |s| ==> '0' <= s[i] <= '9'
  {
    if s == "" then 0 else DecimalValue(s[..|s| - 1]) * 10 + (s[|s| - 1] - '0') as nat
  }

  /** All that is asked of the host's reading: up to three decimal digits mean what they say. */
  ghost predicate ReadsDecimals(number: Numeral) {
    forall s :: IsDecimal(s) && |s| <= 3 ==> number(s) == Some(DecimalValue(s) as int)
  }

  // ---------------------------------------------------------------- parsing

  datatype Quad = Quad(a: nat, b: nat, c: nat, d: nat)

  function Octet(part: string, number: Numeral): Option<nat> {
    var n := number(part);
    if n.Some? && 0 <= n.value <= 255 then Some(n.value as nat) else None
  }

  function Octets(tail: string, number: Numeral): Option<Quad> {
    var parts := Split(tail, '.');
    if |parts| != 4 then None
    else
      var a, b, c, d := Octet(parts[0], number), Octet(parts[1], number), Octet(parts[2], number), Octet(parts[3], number);
      if a.Some? && b.Some? && c.Some? && d.Some? then Some(Quad(a.value, b.value, c.value, d.value)) else None
  }

  /** A trailing dotted quad becomes two hexadecimal groups. */
  function WithoutQuad(s: string, number: Numeral): Option<string> {
    var k := AfterLast(s, ':');
    if '.' !in s[k..] then Some(s)
    else
      match Octets(s[k..], number)
      case None => None
      case Some(o) => Some(s[..k] + (Hex(o.a * 256 + o.b) + ":" + Hex(o.c * 256 + o.d)))
  }

  function Parts(s: string): seq<string> {
    if s == "" then [] else Split(s, ':')
  }

  function Zeros(n: nat): seq<string> {
    seq(n, _ => "0")
  }

  /** The groups as written, `::` expanded. */
  function Expanded(s: string): Option<seq<string>> {
    var halves := SplitDouble(s);
    if |halves| > 2 then None
    else if |halves| == 1 then Some(Parts(s))
    else
      var head, back := Parts(halves[0]), Parts(halves[1]);
      if |head| + |back| > 8 then None else Some(head + Zeros(8 - |head| - |back|) + back)
  }

  function Values(groups: seq<string>): Option<seq<nat>> {
    if groups == [] then Some([])
    else if !IsGroup(groups[0]) then None
    else
      match Values(groups[1..])
      case None => None
      case Some(rest) => Some([HexValue(groups[0])] + rest)
  }

  function GroupsOf(s: string): Option<seq<nat>> {
    match Expanded(s)
    case None => None
    case Some(groups) => if |groups| != 8 then None else Values(groups)
  }

  function V6Groups(v6: string, number: Numeral): Option<seq<nat>> {
    match WithoutQuad(v6[..IndexOf(v6, '%')], number)
    case None => None
    case Some(s) => GroupsOf(s)
  }

  // ---------------------------------------------------------------- embedded IPv4

  function Dotted(hi: nat, lo: nat): string {
    Decimal(hi / 256 % 256) + "." + Decimal(hi % 256) + "." + Decimal(lo / 256 % 256) + "." + Decimal(lo % 256)
  }

  function EmbeddedIn(g: seq<nat>): Option<string>
    requires |g| == 8
  {
    var top := g[0] == 0 && g[1] == 0 && g[2] == 0 && g[3] == 0 && g[4] == 0;
    if top && g[5] == 0xffff then Some(Dotted(g[6], g[7]))
    else if top && g[5] == 0 && (g[6] != 0 || g[7] != 0) then Some(Dotted(g[6], g[7]))
    else if g[0] == 0x64 && g[1] == 0xff9b && g[2] == 0 && g[3] == 0 && g[4] == 0 && g[5] == 0 then Some(Dotted(g[6], g[7]))
    else if g[0] == 0x2002 then Some(Dotted(g[1], g[2]))
    else None
  }

  function EmbeddedV4(v6: string, number: Numeral): Option<string> {
    match V6Groups(v6, number)
    case None => None
    case Some(g) => if |g| == 8 then EmbeddedIn(g) else None
  }

  function Lower(s: string): string {
    if s == "" then "" else [if 'A' <= s[0] <= 'Z' then s[0] - 'A' + 'a' else s[0]] + Lower(s[1..])
  }
}
