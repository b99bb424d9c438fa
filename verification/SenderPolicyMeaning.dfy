/** What the sender policy means: the normal form of a text, the valid entries, what each kind
    of entry matches, and what each mode decides. */
module SenderPolicyMeaning {
  import opened SenderPolicy

  // ---------- Normal form ----------

  /** ASCII white space, by character code. */
  predicate IsBlank(code: int) {
    9 <= code <= 13 || 28 <= code <= 32
  }

  function SmallLetter(code: int): int {
    if 65 <= code <= 90 then code + 32 else code
  }

  lemma {:induction false} StripLeftIsSuffix(s: string) returns (i: nat)
    ensures i <= |s| && StripLeft(s) == s[i..] && forall k :: 0 <= k < i ==> IsBlank(s[k] as int)
  {
    i := 0;
    if s != "" && IsSpace(s[0]) {
      var j := StripLeftIsSuffix(s[1..]);
      i := j + 1;
      forall k | 0 <= k < i ensures IsBlank(s[k] as int) {
        if k > 0 {
          assert s[k] == s[1..][k - 1];
        }
      }
    }
  }

  lemma {:induction false} StripRightIsPrefix(s: string) returns (j: nat)
    ensures j <= |s| && StripRight(s) == s[..j] && forall k :: j <= k < |s| ==> IsBlank(s[k] as int)
  {
    j := |s|;
    if s != "" && IsSpace(s[|s| - 1]) {
      j := StripRightIsPrefix(s[..|s| - 1]);
      assert forall k :: 0 <= k < |s| - 1 ==> s[..|s| - 1][k] == s[k];
    }
  }

  /** The normal form is the text between the surrounding white space, in small letters. */
  lemma {:induction false} NormalMeaning(raw: string) returns (i: nat, j: nat)
    ensures i <= j <= |raw| && |Normal(raw)| == j - i
    ensures forall k :: 0 <= k < i || j <= k < |raw| ==> IsBlank(raw[k] as int)
    ensures i < j ==> !IsBlank(raw[i] as int) && !IsBlank(raw[j - 1] as int)
    ensures forall k :: i <= k < j ==> Normal(raw)[k - i] as int == SmallLetter(raw[k] as int)
  {
    i := StripLeftIsSuffix(raw);
    var n := StripRightIsPrefix(raw[i..]);
    j := i + n;
    StripLeftMeaning(raw);
    StripRightMeaning(raw[i..]);
    assert forall k :: 0 <= k < |raw| - i ==> raw[i..][k] == raw[i + k];
    assert forall k :: j <= k < |raw| ==> raw[k] == raw[i..][k - i];
  }

  // ---------- Entries ----------

  /** A domain as an entry may name it. */
  predicate GoodDomain(domain: string, validEmail: string -> bool) {
    domain != "" && '*' !in domain && '@' !in domain && validEmail("probe@" + domain)
  }

  predicate IsWildcard(entry: string) {
    "@*." <= entry
  }

  predicate IsDomain(entry: string) {
    "@" <= entry && !IsWildcard(entry)
  }

  /** Exactly which entries are valid: addresses, domains and wildcard domains. */
  lemma NormalizeEntryMeaning(raw: string, validEmail: string -> bool)
    ensures var e := Normal(raw);
            NormalizeEntry(raw, validEmail).Entry? <==>
              && 0 < |e| <= 254
              && if IsWildcard(e) then GoodDomain(e[3..], validEmail)
                 else if IsDomain(e) then GoodDomain(e[1..], validEmail)
                 else '*' !in e && validEmail(e)
    ensures var e, r := Normal(raw), NormalizeEntry(raw, validEmail);
            && (r == Invalid(Empty) <==> e == "")
            && (r == Invalid(TooLong) <==> |e| > 254)
            && (r == Invalid(BadWildcard) <==>
                  0 < |e| <= 254 && '*' in if IsWildcard(e) then e[3..] else e)
            && (r == Invalid(BadAddress) <==> 0 < |e| <= 254 && e[0] != '@' && '*' !in e && !validEmail(e))
  {
    var e := Normal(raw);
    if IsDomain(e) {
      assert e == ['@'] + e[1..];
    }
  }

  // ---------- Matching ----------

  /** The domain of a text is what follows its last '@'. */
  lemma {:induction false} AfterLastAtMeaning(s: string) returns (k: nat)
    requires '@' in s
    ensures k < |s| && s[k] == '@' && AfterLastAt(s) == s[k + 1..] && '@' !in s[k + 1..]
  {
    var last := |s| - 1;
    if s[last] == '@' {
      k := last;
    } else {
      assert s == s[..last] + [s[last]];
      k := AfterLastAtMeaning(s[..last]);
      assert s[k + 1..] == s[..last][k + 1..] + [s[last]];
    }
  }

  predicate HasDomain(sender: string) {
    '@' in Normal(sender) && AfterLastAt(Normal(sender)) != ""
  }

  /** An address entry matches that very address, a domain entry that very domain. */
  lemma {:induction false} EntryMatchesExactly(sender: string, entry: string)
    requires Normal(entry) == entry != "" && !IsWildcard(entry)
    ensures !IsDomain(entry) ==>
              (Matches(sender, [entry]) <==> HasDomain(sender) && Normal(sender) == entry)
    ensures IsDomain(entry) && '@' !in entry[1..] ==>
              (Matches(sender, [entry]) <==> HasDomain(sender) && AfterLastAt(Normal(sender)) == entry[1..])
  {
    var s := Normal(sender);
    assert [entry][0] == entry;
    assert Matches(sender, [entry]) <==> HasDomain(sender) && (entry == s || entry == "@" + AfterLastAt(s));
    if IsDomain(entry) && '@' !in entry[1..] {
      assert entry == "@" + entry[1..];
      if '@' in s {
        var k := AfterLastAtMeaning(s);
        assert forall m :: 0 < m < |entry| ==> entry[m] == entry[1..][m - 1];
        assert s == entry ==> k == 0;
        if entry == "@" + AfterLastAt(s) {
          assert entry[1..] == AfterLastAt(s);
        }
      }
    }
  }

  /** A list matches a sender exactly when one of its entries does. */
  lemma {:induction false} ListMatchesIff(sender: string, entries: seq<string>)
    ensures Matches(sender, entries) <==> exists i :: 0 <= i < |entries| && Matches(sender, [entries[i]])
  {
    var s := Normal(sender);
    forall i | 0 <= i < |entries|
      ensures Matches(sender, [entries[i]]) <==>
                HasDomain(sender) && EntryMatches(s, AfterLastAt(s), Normal(entries[i]))
    {
      assert [entries[i]][0] == entries[i];
    }
  }

  // ---------- The decision ----------

  /** The sender is the owner's own address. */
  predicate IsOwner(p: Policy, sender: string) {
    Normal(p.ownerEmail) != "" && Normal(sender) == Normal(p.ownerEmail)
  }

  lemma MatchesNormal(sender: string, entries: seq<string>)
    ensures Matches(Normal(sender), entries) <==> Matches(sender, entries)
  {
    NormalIsIdempotent(sender);
  }

  /** What each mode accepts. The owner is always accepted and the blocklist never blocks it;
      others are refused when blocked, and in owner mode also unless allowed. */
  lemma {:induction false} DecisionMeaning(p: Policy, sender: string)
    ensures var d := EvaluateSenderPolicy(p, sender);
            var blocked, allowed := Matches(sender, p.blocklist), Matches(sender, p.allowlist);
            && (p.mode == OwnerMode ==> (d.accepted <==> IsOwner(p, sender) || (allowed && !blocked)))
            && (p.mode == AnyoneMode ==> (d.accepted <==> IsOwner(p, sender) || !blocked))
            && (d.isOwner <==> IsOwner(p, sender))
            && (d.reason == Owner <==> IsOwner(p, sender))
            && (d.reason == Blocklisted <==> !IsOwner(p, sender) && blocked)
            && (d.reason == Anyone <==> !IsOwner(p, sender) && !blocked && p.mode == AnyoneMode)
            && (d.reason == Allowlisted <==> !IsOwner(p, sender) && !blocked && p.mode == OwnerMode && allowed)
            && (d.reason == NotAllowed <==> !IsOwner(p, sender) && !blocked && p.mode == OwnerMode && !allowed)
  {
    MatchesNormal(sender, p.blocklist);
    MatchesNormal(sender, p.allowlist);
  }

  /** Owner mode accepts no sender that anyone mode refuses, and with an empty allowlist the
      owner alone. */
  lemma {:induction false} OwnerModeIsStricter(p: Policy, sender: string)
    ensures EvaluateSenderPolicy(p.(mode := OwnerMode), sender).accepted ==>
              EvaluateSenderPolicy(p.(mode := AnyoneMode), sender).accepted
    ensures EvaluateSenderPolicy(p.(mode := OwnerMode, allowlist := []), sender).accepted <==> IsOwner(p, sender)
  {
    DecisionMeaning(p.(mode := OwnerMode), sender);
    DecisionMeaning(p.(mode := AnyoneMode), sender);
    DecisionMeaning(p.(mode := OwnerMode, allowlist := []), sender);
  }
}
