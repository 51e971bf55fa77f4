/** Which address a request is limited by: X-Forwarded-For resolution behind trusted proxies. */
module ClientAddress {

  /** The white space Go's strings.TrimSpace removes. */
  predicate IsSpace(c: char) {
    c in {'\t', '\n', '\U{0B}', '\U{0C}', '\r', ' ', '\U{85}', '\U{A0}', '\U{1680}', '\U{2028}', '\U{2029}', '\U{202F}',
          '\U{205F}', '\U{3000}'}
    || '\U{2000}' <= c <= '\U{200A}'
  }

  function TrimLeft(s: string): string {
    if s != [] && IsSpace(s[0]) then TrimLeft(s[1..]) else s
  }

  function TrimRight(s: string): string {
    if s != [] && IsSpace(s[|s| - 1]) then TrimRight(s[..|s| - 1]) else s
  }

  function Trim(s: string): string { TrimRight(TrimLeft(s)) }

  /** `cut` is `s` without its first `i` and last `|s| - j` characters, all of them white, and no more can go. */
  ghost predicate IsTrimmed(s: string, cut: string, white: set<char>, i: nat, j: nat) {
    && i <= j <= |s| && cut == s[i..j]
    && (forall k :: 0 <= k < i || j <= k < |s| ==> s[k] in white)
    && (cut != [] ==> cut[0] !in white && cut[|cut| - 1] !in white)
  }

  lemma {:induction false} TrimLeftCuts(s: string) returns (i: nat)
    ensures i <= |s| && TrimLeft(s) == s[i..]
    ensures (forall k :: 0 <= k < i ==> IsSpace(s[k])) && (i < |s| ==> !IsSpace(s[i]))
  {
    i := 0;
    if s != [] && IsSpace(s[0]) {
      var n := TrimLeftCuts(s[1..]);
      i := n + 1;
      assert forall k :: 0 < k < i ==> s[k] == s[1..][k - 1];
    }
  }

  lemma {:induction false} TrimRightCuts(s: string) returns (j: nat)
    ensures j <= |s| && TrimRight(s) == s[..j]
    ensures (forall k :: j <= k < |s| ==> IsSpace(s[k])) && (0 < j ==> !IsSpace(s[j - 1]))
  {
    j := |s|;
    if s != [] && IsSpace(s[|s| - 1]) {
      j := TrimRightCuts(s[..|s| - 1]);
    }
  }

  /** Trimming cuts off exactly the tabs, line ends, blanks and other Unicode white space at both ends. */
  lemma TrimCuts(s: string) returns (i: nat, j: nat)
    ensures IsTrimmed(s, Trim(s),
      {'\t', '\n', '\U{0B}', '\U{0C}', '\r', ' ', '\U{85}', '\U{A0}', '\U{1680}',
       '\U{2000}', '\U{2001}', '\U{2002}', '\U{2003}', '\U{2004}', '\U{2005}', '\U{2006}', '\U{2007}', '\U{2008}',
       '\U{2009}', '\U{200A}', '\U{2028}', '\U{2029}', '\U{202F}', '\U{205F}', '\U{3000}'}, i, j)
  {
    i := TrimLeftCuts(s);
    var n := TrimRightCuts(s[i..]);
    j := i + n;
    forall k | 0 <= k < i || j <= k < |s| ensures IsSpace(s[k]) {
      assert j <= k ==> s[k] == s[i..][k - i];
    }
    assert Trim(s) == s[i..j];
  }

  /** Reading one more character: a comma opens a new piece, anything else extends the last one. */
  function Extend(pieces: seq<string>, c: char): (more: seq<string>)
    requires pieces != []
    ensures more != []
  {
    if c == ',' then pieces + [""] else pieces[|pieces| - 1 := pieces[|pieces| - 1] + [c]]
  }

  /** The pieces between commas; a string without commas is one piece. */
  function Split(s: string): (pieces: seq<string>)
    ensures pieces != []
  {
    if s == [] then [""] else Extend(Split(s[..|s| - 1]), s[|s| - 1])
  }

  lemma ExtendAfter(a: seq<string>, b: seq<string>, c: char)
    requires b != []
    ensures Extend(a + b, c) == a + Extend(b, c)
  {
  }

  lemma {:induction false} SplitJoin(a: string, b: string)
    ensures Split(a + "," + b) == Split(a) + Split(b)
  {
    var s := a + "," + b;
    if b == [] {
      assert s[..|s| - 1] == a && s[|s| - 1] == ',';
    } else {
      var front := b[..|b| - 1];
      SplitJoin(a, front);
      assert s[..|s| - 1] == a + "," + front && s[|s| - 1] == b[|b| - 1];
      ExtendAfter(Split(a), Split(front), b[|b| - 1]);
    }
  }

  lemma {:induction false} SplitPlain(s: string)
    requires ',' !in s
    ensures Split(s) == [s]
  {
    if s != [] {
      SplitPlain(s[..|s| - 1]);
      assert s[|s| - 1] in s && s == s[..|s| - 1] + [s[|s| - 1]];
    }
  }

  // ----- resolution

  /** A non-empty hop that is not one of the trusted proxies. */
  predicate Untrusted(hop: string, trusted: set<string>) {
    Trim(hop) != "" && Trim(hop) !in trusted
  }

  predicate HasUntrusted(hops: seq<string>, trusted: set<string>) {
    exists i :: 0 <= i < |hops| && Untrusted(hops[i], trusted)
  }

  /** The right-most untrusted hop. */
  function LastUntrusted(hops: seq<string>, trusted: set<string>): string
    requires HasUntrusted(hops, trusted)
  {
    if Untrusted(hops[|hops| - 1], trusted) then Trim(hops[|hops| - 1]) else LastUntrusted(hops[..|hops| - 1], trusted)
  }

  /** What the client address should be. */
  function ClientIP(peer: string, forwarded: string, trusted: set<string>): string {
    var hops := Split(forwarded);
    if forwarded == "" then peer
    else if trusted != {} && peer !in trusted then peer
    else if trusted != {} && HasUntrusted(hops, trusted) then LastUntrusted(hops, trusted)
    else if Trim(hops[0]) != "" then Trim(hops[0])
    else peer
  }

  lemma {:induction false} LastUntrustedAt(hops: seq<string>, trusted: set<string>, i: nat)
    requires i < |hops| && Untrusted(hops[i], trusted)
    requires forall j :: i < j < |hops| ==> !Untrusted(hops[j], trusted)
    ensures HasUntrusted(hops, trusted) && LastUntrusted(hops, trusted) == Trim(hops[i])
  {
    if i < |hops| - 1 {
      LastUntrustedAt(hops[..|hops| - 1], trusted, i);
    }
  }

  /** The scan from the right. */
  method GetClientIP(peer: string, forwarded: string, trusted: set<string>) returns (ip: string)
    ensures ip == ClientIP(peer, forwarded, trusted)
    ensures peer in trusted && forwarded != "" && HasUntrusted(Split(forwarded), trusted) ==>
      ip != "" && ip !in trusted
      && exists i :: 0 <= i < |Split(forwarded)| && ip == Trim(Split(forwarded)[i])
                     && forall j :: i < j < |Split(forwarded)| ==> !Untrusted(Split(forwarded)[j], trusted)
  {
    if forwarded != "" && trusted != {} {
      if peer in trusted {
        var ips := Split(forwarded);
        var i := |ips| - 1;
        while i >= 0
          invariant -1 <= i < |ips|
          invariant forall j :: i < j < |ips| ==> !Untrusted(ips[j], trusted)
        {
          ip := Trim(ips[i]);
          if ip != "" && ip !in trusted {
            LastUntrustedAt(ips, trusted, i);
            return;
          }
          i := i - 1;
        }
        ip := Trim(ips[0]);
        if ip != "" {
          return;
        }
      }
      return peer;
    }
    if forwarded != "" {
      var ips := Split(forwarded);
      ip := Trim(ips[0]);
      if ip != "" {
        return;
      }
    }
    return peer;
  }

  // ----- the cases of the resolution

  lemma LeadingBlank(s: string)
    ensures Trim(" " + s) == Trim(s)
  {
    assert (" " + s)[1..] == s;
  }

  /** Behind a trusted peer, the hop before the trusted proxies is the client, blanks after commas notwithstanding. */
  lemma ClientBehindProxy(peer: string, name: string, proxy: string, trusted: set<string>)
    requires peer in trusted && Claimable(name, trusted)
    requires proxy in trusted && ',' !in proxy && Trim(proxy) == proxy
    ensures ClientIP(peer, name + ", " + proxy, trusted) == name
  {
    hide Trim, Split, LastUntrusted;
    var header := name + ", " + proxy;
    assert header == name + "," + (" " + proxy);
    SplitJoin(name, " " + proxy);
    SplitPlain(name);
    SplitPlain(" " + proxy);
    LeadingBlank(proxy);
    LastUntrustedAt([name, " " + proxy], trusted, 0);
    assert Split(header) == [name, " " + proxy];
  }

  /** The fallbacks: the peer without a header or behind none of the proxies, and the first hop if all are trusted. */
  lemma Fallbacks(peer: string, header: string, trusted: set<string>)
    ensures ClientIP(peer, "", trusted) == peer
    ensures trusted != {} && peer !in trusted ==> ClientIP(peer, header, trusted) == peer
    ensures
      && peer in trusted && header != ""
      && (forall hop :: hop in Split(header) ==> Trim(hop) in trusted && Trim(hop) != "")
      ==> ClientIP(peer, header, trusted) == Trim(Split(header)[0])
    ensures trusted == {} && header != "" ==>
      ClientIP(peer, header, trusted) == if Trim(Split(header)[0]) != "" then Trim(Split(header)[0]) else peer
  {
    assert Split(header)[0] in Split(header);
  }

  // ----- what a client can forge

  lemma {:induction false} UntrustedSuffix(a: seq<string>, b: seq<string>, trusted: set<string>)
    requires HasUntrusted(b, trusted)
    ensures HasUntrusted(a + b, trusted) && LastUntrusted(a + b, trusted) == LastUntrusted(b, trusted)
  {
    var i :| 0 <= i < |b| && Untrusted(b[i], trusted);
    assert (a + b)[|a| + i] == b[i];
    if !Untrusted(b[|b| - 1], trusted) {
      assert b[..|b| - 1][i] == b[i];
      UntrustedSuffix(a, b[..|b| - 1], trusted);
      assert (a + b)[..|a + b| - 1] == a + b[..|b| - 1];
    }
  }

  /** Behind a trusted peer, text a client puts in front of a header with an untrusted hop has no effect. */
  lemma PrefixIsIgnored(peer: string, prefix: string, header: string, trusted: set<string>)
    requires peer in trusted && HasUntrusted(Split(header), trusted)
    ensures ClientIP(peer, prefix + "," + header, trusted) == ClientIP(peer, header, trusted)
  {
    SplitJoin(prefix, header);
    UntrustedSuffix(Split(prefix), Split(header), trusted);
  }

  /** A name a client could claim: one hop, already trimmed, and not a proxy's. */
  predicate Claimable(name: string, trusted: set<string>) {
    name != "" && ',' !in name && Trim(name) == name && name !in trusted
  }

  /** If every hop is a trusted proxy or empty, whatever name is put in front becomes the client address. */
  lemma PrefixIsBelieved(peer: string, name: string, header: string, trusted: set<string>)
    requires peer in trusted && !HasUntrusted(Split(header), trusted) && Claimable(name, trusted)
    ensures ClientIP(peer, name + "," + header, trusted) == name
  {
    hide Split, Trim, LastUntrusted;
    SplitJoin(name, header);
    SplitPlain(name);
    NothingBehind(name, Split(header), trusted);
  }

  lemma NothingBehind(name: string, rest: seq<string>, trusted: set<string>)
    requires Untrusted(name, trusted) && !HasUntrusted(rest, trusted)
    ensures HasUntrusted([name] + rest, trusted) && LastUntrusted([name] + rest, trusted) == Trim(name)
  {
    hide Trim, LastUntrusted;
    var hops := [name] + rest;
    forall j | 0 < j < |hops| ensures !Untrusted(hops[j], trusted) {
      assert hops[j] == rest[j - 1];
    }
    LastUntrustedAt(hops, trusted, 0);
  }

  lemma LongerThanAll(names: set<string>) returns (n: nat)
    ensures n > 0 && forall t :: t in names ==> |t| < n
    decreases |names|
  {
    if names == {} {
      n := 1;
    } else {
      var t :| t in names;
      n := LongerThanAll(names - {t});
      n := n + |t| + 1;
    }
  }

  lemma SomeNameIsClaimable(trusted: set<string>) returns (name: string)
    ensures Claimable(name, trusted)
  {
    var n := LongerThanAll(trusted);
    name := seq(n, _ => 'a');
  }

  /** Without configured proxies the first hop is believed. */
  lemma FirstHopIsBelieved(peer: string, name: string, header: string)
    requires Claimable(name, {})
    ensures ClientIP(peer, name + "," + header, {}) == name
  {
    hide Split, Trim;
    SplitJoin(name, header);
    SplitPlain(name);
    assert Split(name + "," + header)[0] == name;
  }

  /**
    Text a client puts in front never changes the resolved address exactly if proxies are
    configured and, when the peer is one of them, the header names an untrusted hop.
  */
  lemma ForgeryProof(peer: string, header: string, trusted: set<string>)
    ensures (forall prefix :: ClientIP(peer, prefix + "," + header, trusted) == ClientIP(peer, header, trusted))
      <==> trusted != {} && (peer in trusted ==> HasUntrusted(Split(header), trusted))
  {
    if trusted == {} {
      FirstHopIsBelieved(peer, "a", header);
      FirstHopIsBelieved(peer, "b", header);
      assert "a" != "b";
    } else if peer in trusted {
      if HasUntrusted(Split(header), trusted) {
        forall prefix ensures ClientIP(peer, prefix + "," + header, trusted) == ClientIP(peer, header, trusted) {
          PrefixIsIgnored(peer, prefix, header, trusted);
        }
      } else {
        var name := SomeNameIsClaimable(trusted);
        assert !Untrusted(Split(header)[0], trusted);
        PrefixIsBelieved(peer, name, header, trusted);
        assert ClientIP(peer, header, trusted) in trusted;
      }
    }
  }
}
