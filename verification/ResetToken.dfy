/** Password reset tokens (utils/token.go): the text inside the encryption, and which tokens a server that
    generates, validates and clears accepts. */
module ResetToken {
  import opened Folds
  import opened Numerals

  const SECOND := 1_000_000_000       // nanoseconds
  const LIFETIME := 300

  // ------------------------------------------------- the text "%d:%d:%s"

  datatype Token = Token(user: nat, timestamp: int, nonce: string)

  function Integer(n: int): string { if n < 0 then "-" + Decimal(-n) else Decimal(n) }

  function Format(t: Token): string { Decimal(t.user) + ":" + Integer(t.timestamp) + ":" + t.nonce }

  predicate IsSpace(c: char) {
    var k := c as int;
    9 <= k <= 13 || k == 32 || k == 0x85 || k == 0xA0 || k == 0x1680 || 0x2000 <= k <= 0x200A
    || k == 0x2028 || k == 0x2029 || k == 0x202F || k == 0x205F || k == 0x3000
  }

  predicate IsWord(s: string) { s != "" && forall i :: 0 <= i < |s| ==> !IsSpace(s[i]) }

  /** Blanks before a verb are skipped; a newline, or nothing after them, is an error. */
  function SkipSpace(s: string): Option<string> {
    if s == "" || s[0] == '\n' then None
    else if IsSpace(s[0]) then SkipSpace(s[1..])
    else Some(s)
  }

  /** Length of the longest prefix of digits. */
  function Digits(s: string): (n: nat)
    ensures n <= |s| && forall i :: 0 <= i < n ==> IsDigit(s[i])
  {
    if s == "" || !IsDigit(s[0]) then 0 else 1 + Digits(s[1..])
  }

  /** Length of the longest prefix without white space. */
  function Word(s: string): (n: nat)
    ensures n <= |s| && forall i :: 0 <= i < n ==> !IsSpace(s[i])
  {
    if s == "" || IsSpace(s[0]) then 0 else 1 + Word(s[1..])
  }

  function ScanDigits(s: string): Option<(nat, string)> {
    var n := Digits(s);
    if n == 0 then None else Some((Value(s[..n]), s[n..]))
  }

  /** %d into a uint. */
  function ScanUint(s: string): Option<(nat, string)> {
    match SkipSpace(s)
    case None => None
    case Some(t) =>
      match ScanDigits(t)
      case None => None
      case Some(p) => if p.0 < 0x1_0000_0000_0000_0000 then Some(p) else None
  }

  /** %d into an int64: a sign is allowed. */
  function ScanInt(s: string): Option<(int, string)> {
    match SkipSpace(s)
    case None => None
    case Some(t) =>
      var signed := t != "" && (t[0] == '-' || t[0] == '+');
      match ScanDigits(if signed then t[1..] else t)
      case None => None
      case Some(p) =>
        var magnitude: int := p.0;
        var v := if signed && t[0] == '-' then -magnitude else magnitude;
        if IsInt64(v) then Some((v, p.1)) else None
  }

  predicate IsInt64(v: int) { -0x8000_0000_0000_0000 <= v < 0x8000_0000_0000_0000 }

  function ScanColon(s: string): Option<string> {
    if s != "" && s[0] == ':' then Some(s[1..]) else None
  }

  /** Sscanf(s, "%d:%d:%s", &user, &timestamp, &nonce); what follows the word is ignored. */
  function Parse(s: string): Option<Token> {
    match ScanUint(s)
    case None => None
    case Some(u) =>
      match ScanColon(u.1)
      case None => None
      case Some(rest) => ParseStamped(u.0, rest)
  }

  function ParseStamped(user: nat, s: string): Option<Token> {
    match ScanInt(s)
    case None => None
    case Some(t) =>
      match ScanColon(t.1)
      case None => None
      case Some(rest) =>
        match SkipSpace(rest)
        case None => None
        case Some(w) => Some(Token(user, t.0, w[..Word(w)]))
  }

  // ------------------------------------------------- round trip

  lemma {:induction false} DigitsThenOther(a: string, rest: string)
    requires forall i :: 0 <= i < |a| ==> IsDigit(a[i])
    requires rest == "" || !IsDigit(rest[0])
    ensures Digits(a + rest) == |a|
  {
    if a == "" {
      assert a + rest == rest;
    } else {
      DigitsThenOther(a[1..], rest);
      assert (a + rest)[1..] == a[1..] + rest;
    }
  }

  lemma ScanDecimal(n: nat, rest: string)
    requires rest == "" || !IsDigit(rest[0])
    ensures ScanDigits(Decimal(n) + rest) == Some((n, rest))
  {
    var a := Decimal(n);
    DigitsThenOther(a, rest);
    DecimalValue(n);
    assert (a + rest)[..|a|] == a && (a + rest)[|a|..] == rest;
  }

  lemma ScanInteger(n: int, rest: string)
    requires IsInt64(n) && (rest == "" || !IsDigit(rest[0]))
    ensures ScanInt(Integer(n) + rest) == Some((n, rest))
  {
    hide Decimal, Digits, ScanDigits, IsInt64;
    var s := Integer(n) + rest;
    if n < 0 {
      assert s[0] == '-' && s[1..] == Decimal(-n) + rest;
      ScanDecimal(-n, rest);
    } else {
      assert s[0] == Decimal(n)[0] && IsDigit(s[0]);
      ScanDecimal(n, rest);
    }
  }

  lemma {:induction false} WholeWord(s: string)
    requires forall i :: 0 <= i < |s| ==> !IsSpace(s[i])
    ensures Word(s) == |s|
  {
    if s != "" {
      WholeWord(s[1..]);
    }
  }

  /** What a parsed token carries is a word. */
  lemma {:induction false} Skipped(s: string)
    ensures SkipSpace(s).Some? ==> SkipSpace(s).value != "" && !IsSpace(SkipSpace(s).value[0])
  {
    if s != "" && s[0] != '\n' && IsSpace(s[0]) {
      Skipped(s[1..]);
    }
  }

  lemma ParsedNonce(user: nat, s: string)
    ensures ParseStamped(user, s).Some? ==> IsWord(ParseStamped(user, s).value.nonce)
  {
    if ParseStamped(user, s).Some? {
      Skipped(ScanColon(ScanInt(s).value.1).value);
    }
  }

  /** Parsing gives back exactly what was printed, if and only if the nonce is a word. */
  lemma RoundTrip(t: Token)
    requires t.user < 0x1_0000_0000_0000_0000 && IsInt64(t.timestamp)
    ensures Parse(Format(t)) == Some(t) <==> IsWord(t.nonce)
  {
    hide Decimal, Integer, Digits, ScanDigits, ParseStamped, IsInt64, IsWord;
    var stamp := Integer(t.timestamp) + ":" + t.nonce;
    var rest := ":" + stamp;
    assert Format(t) == Decimal(t.user) + rest;
    assert IsDigit(Format(t)[0]);
    ScanDecimal(t.user, rest);
    assert ScanUint(Format(t)) == Some((t.user, rest));
    assert rest[1..] == stamp;
    StampRoundTrip(t);
  }

  lemma StampRoundTrip(t: Token)
    requires IsInt64(t.timestamp)
    ensures ParseStamped(t.user, Integer(t.timestamp) + ":" + t.nonce) == Some(t) <==> IsWord(t.nonce)
  {
    var stamp := Integer(t.timestamp) + ":" + t.nonce;
    assert stamp == Integer(t.timestamp) + (":" + t.nonce);
    ScanInteger(t.timestamp, ":" + t.nonce);
    assert (":" + t.nonce)[1..] == t.nonce;
    ParsedNonce(t.user, stamp);
    if IsWord(t.nonce) {
      WholeWord(t.nonce);
      assert t.nonce[..|t.nonce|] == t.nonce;
    }
  }

  // ------------------------------------------------- runs

  datatype Event = Generate(user: nat, now: int, nonce: string) | Clear(user: nat)

  /** UPDATE users SET nonce = ... WHERE id = user: no error when there is no such row. */
  function Update(nonces: map<nat, string>, user: nat, nonce: string): map<nat, string> {
    if user in nonces then nonces[user := nonce] else nonces
  }

  function Apply(nonces: map<nat, string>, e: Event): map<nat, string> {
    match e
    case Generate(user, _, nonce) => Update(nonces, user, nonce)
    case Clear(user) => Update(nonces, user, "")
  }

  function Exec(nonces: map<nat, string>, events: seq<Event>): map<nat, string> {
    if events == [] then nonces else Apply(Exec(nonces, events[..|events| - 1]), events[|events| - 1])
  }

  /** The token made at an event. */
  function Issued(e: Event): Token
    requires e.Generate?
  {
    Token(e.user, e.now / SECOND, e.nonce)
  }

  /** The decrypted text, a clock in nanoseconds and the stored nonces decide. */
  function Validate(nonces: map<nat, string>, text: string, now: int): Option<nat> {
    match Parse(text)
    case None => None
    case Some(t) =>
      if now > (t.timestamp + LIFETIME) * SECOND then None
      else if (if t.user in nonces then nonces[t.user] else "") != t.nonce then None
      else Some(t.user)
  }

  ghost predicate FreshNonces(events: seq<Event>) {
    && (forall i :: 0 <= i < |events| && events[i].Generate? ==> IsWord(events[i].nonce))
    && (forall i, j :: 0 <= i < j < |events| && events[i].Generate? && events[j].Generate? ==>
          events[i].nonce != events[j].nonce)
  }

  /** No later event is for the same user. */
  ghost predicate Latest(events: seq<Event>, i: nat) {
    i < |events| && forall j :: i < j < |events| ==> events[j].user != events[i].user
  }

  lemma {:induction false} ExecKeys(nonces: map<nat, string>, events: seq<Event>)
    ensures Exec(nonces, events).Keys == nonces.Keys
  {
    if events != [] {
      ExecKeys(nonces, events[..|events| - 1]);
    }
  }

  /** A generated nonce is the stored one exactly as long as nothing else has happened to its user. */
  lemma {:induction false} NonceStored(nonces: map<nat, string>, events: seq<Event>, i: nat)
    requires i < |events| && events[i].Generate? && FreshNonces(events) && events[i].user in nonces
    ensures var s := Exec(nonces, events);
      events[i].user in s && (s[events[i].user] == events[i].nonce <==> Latest(events, i))
  {
    var n := |events| - 1;
    var front := events[..n];
    ExecKeys(nonces, front);
    assert events[n].Generate? ==> IsWord(events[n].nonce);
    if i < n {
      NonceStored(nonces, front, i);
      assert front[i] == events[i];
      assert events[n].user != events[i].user ==> (Latest(front, i) <==> Latest(events, i)) by {
        if Latest(front, i) && events[n].user != events[i].user {
          forall j | i < j < |events| ensures events[j].user != events[i].user {
            assert j < n ==> front[j] == events[j];
          }
        }
      }
    }
  }

  /** A generated token in a run with fresh nonces, its numbers within the types scanned into. */
  ghost predicate Ordinary(events: seq<Event>, i: nat) {
    && i < |events| && events[i].Generate? && FreshNonces(events)
    && events[i].user < 0x1_0000_0000_0000_0000 && IsInt64(events[i].now / SECOND)
  }

  /** Accepted exactly when the user exists, the token is at most 300 seconds old by its own timestamp, and the
      user has neither been given another token nor been cleared. */
  ghost function Verdict(initial: map<nat, string>, events: seq<Event>, i: nat, now: int): Option<nat>
    requires Ordinary(events, i)
  {
    var e := events[i];
    if e.user in initial && now <= (e.now / SECOND + LIFETIME) * SECOND && Latest(events, i) then Some(e.user) else None
  }

  lemma AcceptedExactly(initial: map<nat, string>, events: seq<Event>, i: nat, now: int)
    requires Ordinary(events, i)
    ensures Validate(Exec(initial, events), Format(Issued(events[i])), now) == Verdict(initial, events, i, now)
  {
    hide Parse, Format, Exec, IsInt64, FreshNonces;
    assert IsWord(events[i].nonce) by {
      FreshWord(events, i);
    }
    RoundTrip(Issued(events[i]));
    ExecKeys(initial, events);
    if events[i].user in initial {
      NonceStored(initial, events, i);
    }
  }

  lemma FreshWord(events: seq<Event>, i: nat)
    requires FreshNonces(events) && i < |events| && events[i].Generate?
    ensures IsWord(events[i].nonce)
  {
  }

  /** By the wall clock a token lives more than 299 and at most 300 seconds. */
  lemma Lifetime(generated: int, now: int)
    ensures now <= generated + 299 * SECOND ==> now <= (generated / SECOND + LIFETIME) * SECOND
    ensures now > generated + 300 * SECOND ==> now > (generated / SECOND + LIFETIME) * SECOND
  {
    assert generated == generated / SECOND * SECOND + generated % SECOND;
  }

  class Server {
    var nonces: map<nat, string>      // users.nonce, by user id
    ghost const initial: map<nat, string>
    ghost var events: seq<Event>

    ghost predicate Valid()
      reads this
    {
      nonces == Exec(initial, events)
    }

    constructor (users: map<nat, string>)
      ensures Valid() && initial == users && events == []
    {
      nonces, initial, events := users, users, [];
    }

    method GenerateResetToken(user: nat, now: int, nonce: string) returns (text: string)
      requires Valid()
      modifies this`nonces, this`events
      ensures Valid() && events == old(events) + [Generate(user, now, nonce)]
      ensures text == Format(Issued(events[|old(events)|]))
    {
      text := Decimal(user) + ":" + Integer(now / SECOND) + ":" + nonce;
      if user in nonces {
        nonces := nonces[user := nonce];
      }
      events := events + [Generate(user, now, nonce)];
      assert events[..|events| - 1] == old(events);
    }

    /** Encrypted tokens that do not decrypt are refused. */
    method ValidateResetToken(decrypted: Option<string>, now: int) returns (r: Option<nat>)
      requires Valid()
      ensures decrypted.None? ==> r == None
      ensures forall i :: 0 <= i < |events| && Ordinary(events, i) && decrypted == Some(Format(Issued(events[i])))
                ==> r == Verdict(initial, events, i, now)
    {
      forall i | 0 <= i < |events| && Ordinary(events, i)
        ensures Validate(nonces, Format(Issued(events[i])), now) == Verdict(initial, events, i, now)
      {
        AcceptedExactly(initial, events, i, now);
      }
      if decrypted.None? {
        return None;
      }
      var t := Parse(decrypted.value);
      if t.None? {
        return None;
      }
      if now > (t.value.timestamp + LIFETIME) * SECOND {
        return None;
      }
      var stored := if t.value.user in nonces then nonces[t.value.user] else "";
      if stored != t.value.nonce {
        return None;
      }
      return Some(t.value.user);
    }

    method ClearNonce(user: nat)
      requires Valid()
      modifies this`nonces, this`events
      ensures Valid() && events == old(events) + [Clear(user)]
    {
      if user in nonces {
        nonces := nonces[user := ""];
      }
      events := events + [Clear(user)];
      assert events[..|events| - 1] == old(events);
    }
  }
}
