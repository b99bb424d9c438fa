/** Who may create notifications by e-mail: list entries, their normalisation, matching of a
    sender, and the decision. Text is ASCII; the e-mail syntax check is a parameter. */
module SenderPolicy {
  const MAX_SENDER_LIST_ENTRIES: nat := 200
  const MAX_SENDER_ENTRY_LENGTH: nat := 254
  const WILDCARD_DOMAIN_PREFIX: string := "@*."

  // ---------- strip().lower() ----------

  predicate IsSpace(c: char) {
    c == ' ' || '\t' <= c <= '\r' || 0x1C <= c as int <= 0x1F
  }

  function LowerChar(c: char): char {
    if 'A' <= c <= 'Z' then c + 32 as char else c
  }

  function Lower(s: string): (r: string)
    ensures |r| == |s|
    ensures forall i :: 0 <= i < |s| ==> r[i] == LowerChar(s[i])
  {
    seq(|s|, i requires 0 <= i < |s| => LowerChar(s[i]))
  }

  function StripLeft(s: string): string {
    if s != "" && IsSpace(s[0]) then StripLeft(s[1..]) else s
  }

  function StripRight(s: string): string {
    if s != "" && IsSpace(s[|s| - 1]) then StripRight(s[..|s| - 1]) else s
  }

  function Normal(raw: string): string {
    Lower(StripRight(StripLeft(raw)))
  }

  predicate Stripped(s: string) {
    s == "" || (!IsSpace(s[0]) && !IsSpace(s[|s| - 1]))
  }

  lemma {:induction false} StripRightMeaning(s: string)
    ensures StripRight(s) == "" || !IsSpace(StripRight(s)[|StripRight(s)| - 1])
    ensures s != "" && !IsSpace(s[0]) ==> StripRight(s) != "" && StripRight(s)[0] == s[0]
  {
    if s != "" && IsSpace(s[|s| - 1]) {
      StripRightMeaning(s[..|s| - 1]);
    }
  }

  lemma {:induction false} StripLeftMeaning(s: string)
    ensures StripLeft(s) == "" || !IsSpace(StripLeft(s)[0])
  {
    if s != "" && IsSpace(s[0]) {
      StripLeftMeaning(s[1..]);
    }
  }

  lemma NormalIsIdempotent(raw: string)
    ensures Normal(Normal(raw)) == Normal(raw)
  {
    StripLeftMeaning(raw);
    StripRightMeaning(StripLeft(raw));
    var n := Normal(raw);
    assert Stripped(n);
    assert StripRight(StripLeft(n)) == n;
    assert Lower(n) == n;
  }

  // ---------- Entries ----------

  datatype EntryError = Empty | TooLong | BadWildcard | BadDomain | BadAddress

  datatype EntryResult = Entry(entry: string) | Invalid(error: EntryError)

  predicate StartsWith(s: string, prefix: string) {
    prefix <= s
  }

  /** Lowercases and validates one entry. */
  function NormalizeEntry(raw: string, validEmail: string -> bool): EntryResult {
    var entry := Normal(raw);
    if entry == "" then Invalid(Empty)
    else if |entry| > MAX_SENDER_ENTRY_LENGTH then Invalid(TooLong)
    else if StartsWith(entry, "@") then
      var domain := if StartsWith(entry, WILDCARD_DOMAIN_PREFIX)
                    then entry[|WILDCARD_DOMAIN_PREFIX|..] else entry[1..];
      if '*' in domain then Invalid(BadWildcard)
      else if domain == "" || '@' in domain then Invalid(BadDomain)
      else if !validEmail("probe@" + domain) then Invalid(BadDomain)
      else Entry(entry)
    else if '*' in entry then Invalid(BadWildcard)
    else if !validEmail(entry) then Invalid(BadAddress)
    else Entry(entry)
  }

  /** A valid entry is stored in normal form and normalises to itself. */
  lemma NormalizeEntryIsIdempotent(raw: string, validEmail: string -> bool)
    requires NormalizeEntry(raw, validEmail).Entry?
    ensures NormalizeEntry(raw, validEmail).entry == Normal(raw) != ""
    ensures NormalizeEntry(Normal(raw), validEmail) == NormalizeEntry(raw, validEmail)
  {
    NormalIsIdempotent(raw);
  }

  /** The distinct normal forms of the entries that are not blank, by first occurrence. */
  function Deduped(values: seq<string>): seq<string> {
    if values == [] then []
    else
      var before := Deduped(values[..|values| - 1]);
      var entry := Normal(values[|values| - 1]);
      if entry == "" || entry in before then before else before + [entry]
  }

  predicate ValidList(values: seq<string>, validEmail: string -> bool) {
    forall i :: 0 <= i < |values| ==> Normal(values[i]) == "" || NormalizeEntry(values[i], validEmail).Entry?
  }

  datatype ListResult = Entries(entries: seq<string>) | Errors(errors: seq<EntryError>) | TooMany

  lemma OneMoreValue(values: seq<string>, i: nat, validEmail: string -> bool)
    requires i < |values|
    ensures ValidList(values[..i + 1], validEmail) <==>
            ValidList(values[..i], validEmail)
            && (Normal(values[i]) == "" || NormalizeEntry(values[i], validEmail).Entry?)
    ensures Deduped(values[..i + 1]) ==
            if Normal(values[i]) == "" || Normal(values[i]) in Deduped(values[..i]) then Deduped(values[..i])
            else Deduped(values[..i]) + [Normal(values[i])]
  {
    assert values[..i + 1][..i] == values[..i];
    assert forall j :: 0 <= j < i ==> values[..i + 1][j] == values[..i][j];
  }

  lemma ValidEntryIsNormal(raw: string, validEmail: string -> bool)
    ensures NormalizeEntry(raw, validEmail).Entry? ==> NormalizeEntry(raw, validEmail).entry == Normal(raw)
    ensures Normal(raw) == "" ==> NormalizeEntry(raw, validEmail).Invalid?
  {
  }

  /** One error for each entry that is neither blank nor valid, in order. */
  function ErrorsIn(values: seq<string>, validEmail: string -> bool): seq<EntryError> {
    if values == [] then []
    else
      var k := |values| - 1;
      var last := NormalizeEntry(values[k], validEmail);
      ErrorsIn(values[..k], validEmail) + if Normal(values[k]) != "" && last.Invalid? then [last.error] else []
  }

  lemma OneMoreError(values: seq<string>, i: nat, validEmail: string -> bool)
    requires i < |values|
    ensures var last := NormalizeEntry(values[i], validEmail);
            ErrorsIn(values[..i + 1], validEmail) ==
            ErrorsIn(values[..i], validEmail) + if Normal(values[i]) != "" && last.Invalid? then [last.error] else []
  {
    assert values[..i + 1][..i] == values[..i];
  }

  /** What the loop over a submitted list has gathered from its first i values. */
  ghost predicate Collected(i: nat, values: seq<string>, validEmail: string -> bool,
                            result: seq<string>, seen: set<string>, errors: seq<EntryError>) {
    && i <= |values|
    && (forall e :: e in seen <==> e in result)
    && (errors == [] <==> ValidList(values[..i], validEmail))
    && errors == ErrorsIn(values[..i], validEmail)
    && (errors == [] ==> result == Deduped(values[..i]))
  }

  lemma CollectOneMore(i: nat, values: seq<string>, validEmail: string -> bool,
                       result: seq<string>, seen: set<string>, errors: seq<EntryError>)
    requires Collected(i, values, validEmail, result, seen, errors) && i < |values|
    ensures Normal(values[i]) == "" ==> Collected(i + 1, values, validEmail, result, seen, errors)
    ensures Normal(values[i]) != "" ==>
              match NormalizeEntry(values[i], validEmail)
              case Invalid(error) => Collected(i + 1, values, validEmail, result, seen, errors + [error])
              case Entry(entry) =>
                if entry in seen then Collected(i + 1, values, validEmail, result, seen, errors)
                else Collected(i + 1, values, validEmail, result + [entry], seen + {entry}, errors)
  {
    OneMoreValue(values, i, validEmail);
    OneMoreError(values, i, validEmail);
    ValidEntryIsNormal(values[i], validEmail);
  }

  /** The loop over a submitted list. */
  method NormalizeEntries(values: seq<string>, validEmail: string -> bool) returns (r: ListResult)
    ensures r.Errors? <==> !ValidList(values, validEmail)
    ensures r.Errors? ==> r.errors == ErrorsIn(values, validEmail)
    ensures ValidList(values, validEmail) ==> r == if |Deduped(values)| > 200 then TooMany else Entries(Deduped(values))
  {
    var result: seq<string> := [];
    var seen: set<string> := {};
    var errors: seq<EntryError> := [];
    for i := 0 to |values|
      invariant Collected(i, values, validEmail, result, seen, errors)
    {
      CollectOneMore(i, values, validEmail, result, seen, errors);
      if Normal(values[i]) == "" {
        continue;
      }
      var entry := NormalizeEntry(values[i], validEmail);
      if entry.Invalid? {
        errors := errors + [entry.error];
        continue;
      }
      if entry.entry !in seen {
        seen := seen + {entry.entry};
        result := result + [entry.entry];
      }
    }
    assert values[..|values|] == values;
    if errors != [] {
      return Errors(errors);
    }
    if |result| > MAX_SENDER_LIST_ENTRIES {
      return TooMany;
    }
    return Entries(result);
  }

  predicate NoDuplicates(values: seq<string>) {
    forall i, j :: 0 <= i < j < |values| ==> values[i] != values[j]
  }

  lemma {:induction false} DedupedMembers(values: seq<string>)
    ensures NoDuplicates(Deduped(values))
    ensures forall e :: e in Deduped(values) <==> e != "" && exists i :: 0 <= i < |values| && Normal(values[i]) == e
  {
    if values != [] {
      var k := |values| - 1;
      DedupedMembers(values[..k]);
      forall e ensures e in Deduped(values) <==> e != "" && exists i :: 0 <= i < |values| && Normal(values[i]) == e {
        if i :| 0 <= i < |values| && Normal(values[i]) == e && i < k {
          assert Normal(values[..k][i]) == e;
        }
        if i :| 0 <= i < k && Normal(values[..k][i]) == e {
          assert Normal(values[i]) == e;
        }
        assert Normal(values[k]) == e ==> exists i :: 0 <= i < |values| && Normal(values[i]) == e;
      }
    }
  }

  /** The position of the first value with a given normal form. */
  function FirstIndex(values: seq<string>, entry: string): nat {
    if values == [] || Normal(values[0]) == entry then 0 else 1 + FirstIndex(values[1..], entry)
  }

  lemma {:induction false} FirstIndexMeaning(values: seq<string>, entry: string)
    ensures FirstIndex(values, entry) <= |values|
    ensures forall i :: 0 <= i < FirstIndex(values, entry) ==> Normal(values[i]) != entry
    ensures FirstIndex(values, entry) < |values| ==> Normal(values[FirstIndex(values, entry)]) == entry
  {
    if values != [] && Normal(values[0]) != entry {
      FirstIndexMeaning(values[1..], entry);
      assert forall i :: 0 < i < |values| ==> values[i] == values[1..][i - 1];
    }
  }

  lemma FirstIndexOfPrefix(values: seq<string>, k: nat, entry: string)
    requires k <= |values|
    ensures FirstIndex(values[..k], entry) < k ==> FirstIndex(values, entry) == FirstIndex(values[..k], entry)
    ensures FirstIndex(values[..k], entry) == k ==> FirstIndex(values, entry) >= k
  {
    FirstIndexMeaning(values, entry);
    FirstIndexMeaning(values[..k], entry);
    assert forall i :: 0 <= i < k ==> values[..k][i] == values[i];
  }

  predicate InFirstOccurrenceOrder(values: seq<string>, d: seq<string>) {
    forall i, j :: 0 <= i < j < |d| ==> FirstIndex(values, d[i]) < FirstIndex(values, d[j])
  }

  /** Normalising keeps the order of first occurrence. */
  lemma {:induction false} DedupedKeepsOrder(values: seq<string>)
    ensures InFirstOccurrenceOrder(values, Deduped(values))
  {
    if values != [] {
      var k := |values| - 1;
      var before, d := Deduped(values[..k]), Deduped(values);
      DedupedKeepsOrder(values[..k]);
      DedupedMembers(values[..k]);
      forall i | 0 <= i < |before|
        ensures FirstIndex(values, before[i]) == FirstIndex(values[..k], before[i]) < k
      {
        assert before[i] in before;
        FirstIndexMeaning(values[..k], before[i]);
        FirstIndexOfPrefix(values, k, before[i]);
      }
      forall i, j | 0 <= i < j < |before| ensures FirstIndex(values, before[i]) < FirstIndex(values, before[j]) {
        assert InFirstOccurrenceOrder(values[..k], before);
      }
      var entry := Normal(values[k]);
      if entry != "" && entry !in before {
        FirstIndexMeaning(values[..k], entry);
        FirstIndexOfPrefix(values, k, entry);
        assert FirstIndex(values[..k], entry) == k;
        assert d == before + [entry];
      } else {
        assert d == before;
      }
    }
  }

  lemma {:induction false} NormalListIsFixed(entries: seq<string>)
    requires NoDuplicates(entries)
    requires forall i :: 0 <= i < |entries| ==> Normal(entries[i]) == entries[i] != ""
    ensures Deduped(entries) == entries
  {
    if entries != [] {
      NormalListIsFixed(entries[..|entries| - 1]);
    }
  }

  /** Normalising a normalised list changes nothing. */
  lemma DedupedIsIdempotent(values: seq<string>)
    ensures Deduped(Deduped(values)) == Deduped(values)
  {
    DedupedMembers(values);
    var d := Deduped(values);
    forall i | 0 <= i < |d| ensures Normal(d[i]) == d[i] != "" {
      assert d[i] in d;
      var k :| 0 <= k < |values| && Normal(values[k]) == d[i];
      NormalIsIdempotent(values[k]);
    }
    NormalListIsFixed(d);
  }

  /** ... and a valid list stays valid. */
  lemma {:induction false} DedupedStaysValid(values: seq<string>, validEmail: string -> bool)
    requires ValidList(values, validEmail)
    ensures ValidList(Deduped(values), validEmail)
  {
    DedupedMembers(values);
    var d := Deduped(values);
    forall i | 0 <= i < |d| ensures NormalizeEntry(d[i], validEmail).Entry? {
      assert d[i] in d;
      var k :| 0 <= k < |values| && Normal(values[k]) == d[i];
      NormalizeEntryIsIdempotent(values[k], validEmail);
    }
  }

  // ---------- Matching ----------

  /** What follows the last '@'. */
  function AfterLastAt(s: string): string {
    if '@' !in s then s
    else if s[|s| - 1] == '@' then ""
    else AfterLastAt(s[..|s| - 1]) + [s[|s| - 1]]
  }

  predicate EndsWith(s: string, suffix: string) {
    |suffix| <= |s| && s[|s| - |suffix|..] == suffix
  }

  predicate EntryMatches(sender: string, domain: string, entry: string) {
    if StartsWith(entry, WILDCARD_DOMAIN_PREFIX) then
      var base := entry[|WILDCARD_DOMAIN_PREFIX|..];
      base != "" && (domain == base || EndsWith(domain, "." + base))
    else entry == sender || entry == "@" + domain
  }

  predicate Matches(sender: string, entries: seq<string>) {
    var s := Normal(sender);
    '@' in s && AfterLastAt(s) != ""
    && exists i :: 0 <= i < |entries| && EntryMatches(s, AfterLastAt(s), Normal(entries[i]))
  }

  method SenderMatches(sender: string, entries: seq<string>) returns (r: bool)
    ensures r <==> Matches(sender, entries)
  {
    var s := Normal(sender);
    if '@' !in s {
      return false;
    }
    var domain := AfterLastAt(s);
    if domain == "" {
      return false;
    }
    for i := 0 to |entries|
      invariant forall j :: 0 <= j < i ==> !EntryMatches(s, domain, Normal(entries[j]))
    {
      var entry := Normal(entries[i]);
      if StartsWith(entry, WILDCARD_DOMAIN_PREFIX) {
        var base := entry[|WILDCARD_DOMAIN_PREFIX|..];
        if base != "" && (domain == base || EndsWith(domain, "." + base)) {
          return true;
        }
      } else if entry == s || entry == "@" + domain {
        return true;
      }
    }
    return false;
  }

  /** Normalising a list never changes which senders it matches. */
  lemma DedupedKeepsMatches(sender: string, values: seq<string>)
    ensures Matches(sender, Deduped(values)) <==> Matches(sender, values)
  {
    var s := Normal(sender);
    var d := Deduped(values);
    DedupedMembers(values);
    if Matches(sender, values) {
      var i :| 0 <= i < |values| && EntryMatches(s, AfterLastAt(s), Normal(values[i]));
      var e := Normal(values[i]);
      assert e != "";
      assert e in d;
      var k :| 0 <= k < |d| && d[k] == e;
      NormalIsIdempotent(values[i]);
      assert EntryMatches(s, AfterLastAt(s), Normal(d[k]));
    }
    if Matches(sender, d) {
      var k :| 0 <= k < |d| && EntryMatches(s, AfterLastAt(s), Normal(d[k]));
      assert d[k] in d;
      var i :| 0 <= i < |values| && Normal(values[i]) == d[k];
      NormalIsIdempotent(values[i]);
      assert EntryMatches(s, AfterLastAt(s), Normal(values[i]));
    }
  }

  // ---------- Wildcards and labels ----------

  /** The dot-separated labels of a domain. */
  function Labels(s: string): (ls: seq<string>)
    ensures ls != []
  {
    if s == "" then [""] else PutFirst(s[0], Labels(s[1..]))
  }

  /** The labels once a character is put before the first one. */
  function PutFirst(c: char, ls: seq<string>): seq<string>
    requires ls != []
  {
    if c == '.' then [""] + ls else [[c] + ls[0]] + ls[1..]
  }

  lemma PutFirstOfConcat(c: char, a: seq<string>, b: seq<string>)
    requires a != []
    ensures PutFirst(c, a + b) == PutFirst(c, a) + b
  {
    assert (a + b)[1..] == a[1..] + b;
  }

  function Join(ls: seq<string>): string
    requires ls != []
  {
    if |ls| == 1 then ls[0] else ls[0] + "." + Join(ls[1..])
  }

  predicate LabelSuffix(ls: seq<string>, all: seq<string>) {
    |ls| <= |all| && all[|all| - |ls|..] == ls
  }

  lemma {:induction false} LabelsOfDotted(a: string, b: string)
    ensures Labels(a + "." + b) == Labels(a) + Labels(b)
  {
    var whole := a + "." + b;
    if a == "" {
      assert whole[1..] == b;
    } else {
      assert whole[1..] == a[1..] + "." + b;
      LabelsOfDotted(a[1..], b);
      PutFirstOfConcat(a[0], Labels(a[1..]), Labels(b));
    }
  }

  lemma {:induction false} JoinOfLabels(s: string)
    ensures Join(Labels(s)) == s
  {
    if s != "" {
      JoinOfLabels(s[1..]);
      var rest := Labels(s[1..]);
      if s[0] == '.' {
        assert ([""] + rest)[1..] == rest;
      } else {
        assert ([[s[0]] + rest[0]] + rest[1..])[1..] == rest[1..];
      }
    }
  }

  lemma {:induction false} JoinOfConcat(a: seq<string>, b: seq<string>)
    requires a != [] && b != []
    ensures Join(a + b) == Join(a) + "." + Join(b)
  {
    if |a| == 1 {
      assert (a + b)[1..] == b;
    } else {
      JoinOfConcat(a[1..], b);
      assert (a + b)[1..] == a[1..] + b;
    }
  }

  lemma {:induction false} DottedEndingIsLabelSuffix(domain: string, base: string)
    requires EndsWith(domain, "." + base)
    ensures LabelSuffix(Labels(base), Labels(domain))
  {
    var a := domain[..|domain| - |base| - 1];
    assert domain == a + "." + base;
    LabelsOfDotted(a, base);
  }

  lemma DottedConcatEndsWith(x: string, base: string)
    ensures EndsWith(x + "." + base, "." + base)
  {
    var whole := x + "." + base;
    assert whole[|whole| - |base| - 1..] == "." + base;
  }

  lemma JoinOfLabelSuffix(all: seq<string>, ls: seq<string>)
    requires ls != [] && LabelSuffix(ls, all) && all != ls
    ensures EndsWith(Join(all), "." + Join(ls))
  {
    var a := all[..|all| - |ls|];
    assert all == a + ls;
    JoinOfConcat(a, ls);
    DottedConcatEndsWith(Join(a), Join(ls));
  }

  lemma {:induction false} LabelSuffixIsDottedEnding(domain: string, base: string)
    requires LabelSuffix(Labels(base), Labels(domain))
    ensures domain == base || EndsWith(domain, "." + base)
  {
    JoinOfLabels(domain);
    JoinOfLabels(base);
    if Labels(domain) != Labels(base) {
      JoinOfLabelSuffix(Labels(domain), Labels(base));
    }
  }

  /** A domain equals the base or ends with a dot and the base exactly when the base's
      labels are the last labels of the domain. */
  lemma {:induction false} DomainUnderBaseIffLabelSuffix(domain: string, base: string)
    ensures domain == base || EndsWith(domain, "." + base) <==> LabelSuffix(Labels(base), Labels(domain))
  {
    if EndsWith(domain, "." + base) {
      DottedEndingIsLabelSuffix(domain, base);
    }
    if LabelSuffix(Labels(base), Labels(domain)) {
      LabelSuffixIsDottedEnding(domain, base);
    }
  }

  /** A wildcard entry matches exactly the senders whose domain ends with all its labels. */
  lemma {:induction false} WildcardMatchesLabelSuffix(sender: string, base: string)
    requires base != "" && Normal(WILDCARD_DOMAIN_PREFIX + base) == WILDCARD_DOMAIN_PREFIX + base
    ensures Matches(sender, [WILDCARD_DOMAIN_PREFIX + base]) <==>
              var s := Normal(sender);
              '@' in s && AfterLastAt(s) != "" && LabelSuffix(Labels(base), Labels(AfterLastAt(s)))
  {
    var s := Normal(sender);
    var entry := WILDCARD_DOMAIN_PREFIX + base;
    DomainUnderBaseIffLabelSuffix(AfterLastAt(s), base);
    assert entry[|WILDCARD_DOMAIN_PREFIX|..] == base;
    assert [entry][0] == entry;
    assert EntryMatches(s, AfterLastAt(s), entry) <==> LabelSuffix(Labels(base), Labels(AfterLastAt(s)));
  }

  // ---------- The decision ----------

  datatype Mode = OwnerMode | AnyoneMode

  datatype Policy = Policy(ownerEmail: string, mode: Mode, allowlist: seq<string>, blocklist: seq<string>)

  datatype Reason = Owner | Allowlisted | Anyone | Blocklisted | NotAllowed

  datatype Decision = Decision(accepted: bool, reason: Reason, isOwner: bool)

  function EvaluateSenderPolicy(p: Policy, sender: string): Decision {
    var s := Normal(sender);
    var owner := Normal(p.ownerEmail);
    if owner != "" && s == owner then Decision(true, Owner, true)
    else if Matches(s, p.blocklist) then Decision(false, Blocklisted, false)
    else if p.mode.AnyoneMode? then Decision(true, Anyone, false)
    else if Matches(s, p.allowlist) then Decision(true, Allowlisted, false)
    else Decision(false, NotAllowed, false)
  }

  /** Saving a policy in normalised form never changes a decision, and a decision does not
      depend on the case or padding of the sender. */
  lemma NormalisingKeepsDecisions(p: Policy, sender: string)
    ensures EvaluateSenderPolicy(p.(allowlist := Deduped(p.allowlist), blocklist := Deduped(p.blocklist)), sender)
            == EvaluateSenderPolicy(p, sender)
    ensures EvaluateSenderPolicy(p, Normal(sender)) == EvaluateSenderPolicy(p, sender)
  {
    DedupedKeepsMatches(Normal(sender), p.allowlist);
    DedupedKeepsMatches(Normal(sender), p.blocklist);
    NormalIsIdempotent(sender);
  }

  /** Blocking one more entry can only refuse senders, never the owner; allowing one more
      can only accept senders, never a blocked one. */
  lemma ListsActMonotonically(p: Policy, sender: string, entry: string)
    ensures EvaluateSenderPolicy(p.(blocklist := p.blocklist + [entry]), sender).accepted ==>
              EvaluateSenderPolicy(p, sender).accepted
    ensures EvaluateSenderPolicy(p, sender).isOwner ==>
              EvaluateSenderPolicy(p.(blocklist := p.blocklist + [entry]), sender).accepted
    ensures EvaluateSenderPolicy(p, sender).accepted ==>
              EvaluateSenderPolicy(p.(allowlist := p.allowlist + [entry]), sender).accepted
    ensures EvaluateSenderPolicy(p, sender).reason == Blocklisted ==>
              EvaluateSenderPolicy(p.(allowlist := p.allowlist + [entry]), sender).reason == Blocklisted
  {
    MatchesGrows(Normal(sender), p.blocklist, entry);
    MatchesGrows(Normal(sender), p.allowlist, entry);
  }

  lemma MatchesGrows(sender: string, entries: seq<string>, entry: string)
    ensures Matches(sender, entries) ==> Matches(sender, entries + [entry])
  {
    var s := Normal(sender);
    if Matches(sender, entries) {
      var i :| 0 <= i < |entries| && EntryMatches(s, AfterLastAt(s), Normal(entries[i]));
      assert EntryMatches(s, AfterLastAt(s), Normal((entries + [entry])[i]));
    }
  }
}
