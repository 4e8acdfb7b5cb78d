/**
 * Account labels and automatic names (apps/backend/src/providers/provider-rules.ts,
 * apps/backend/src/auth/passkey-name.util.ts).
 */
module Labels {
  import opened Prelude
  import opened Numerals
  import opened Text
  import opened Pigeonhole

  /** A labelled account (`tag` is its label); none marks the provider's original ("main") account. */
  datatype Account = Account(uuid: string, tag: Option<string>)

  datatype Relabel = Relabel(uuid: string, tag: string)

  /** Labels are compared without regard to case; no label is a label of its own. */
  function Key(tag: Option<string>): Option<string> {
    if tag.Some? then Some(Lower(tag.value)) else None
  }

  predicate LabelTaken(accounts: seq<Account>, tag: Option<string>, except: Option<string>) {
    exists i :: 0 <= i < |accounts| && Some(accounts[i].uuid) != except && Key(accounts[i].tag) == Key(tag)
  }

  const LABEL_MAX: nat := 64

  function FitLabel(base: string, suffix: string): string {
    TrimEnd(Head(base, LABEL_MAX - |suffix|)) + suffix
  }

  function Suffix(n: nat): string {
    " (" + Print(n) + ")"
  }

  /** The n-th label tried for `wanted`: bare, then with " (2)", " (3)"... */
  function Candidate(wanted: string, n: nat): string {
    if n <= 1 then FitLabel(wanted, "") else FitLabel(wanted, Suffix(n))
  }

  function CandidateKey(wanted: string): nat -> string {
    (n: nat) => Lower(Candidate(wanted, n))
  }

  // ---- two suffixes are never read as each other, wherever the base was cut ----

  /** Read from the end: the closing bracket, the digits of `n`, the opening bracket. */
  lemma {:induction false} SuffixFromTheEnd(a: string, n: nat)
    ensures var x, digits := a + Suffix(n), Print(n);
            && |x| == |a| + |digits| + 3
            && (forall i :: 0 <= i < |digits| ==> digits[i] == x[|x| - 1 - |digits| + i])
            && x[|x| - 2 - |digits|] == '('
  {
    hide Print;
    Bracketed(a, Print(n));
  }

  lemma Bracketed(a: string, digits: string)
    ensures var x := a + (" (" + digits + ")");
            && |x| == |a| + |digits| + 3
            && (forall i :: 0 <= i < |digits| ==> digits[i] == x[|a| + 2 + i])
            && x[|a| + 1] == '('
  {
  }

  lemma DifferSomewhere(a: string, b: string) returns (i: nat)
    requires |a| == |b| && a != b
    ensures i < |a| && a[i] != b[i]
  {
    i :| 0 <= i < |a| && a[i] != b[i];
  }

  lemma SuffixesDiffer(a: string, b: string, m: nat, n: nat)
    requires m != n
    ensures a + Suffix(m) != b + Suffix(n)
  {
    hide Suffix, Print, Parse;
    var pm, pn := Print(m), Print(n);
    ParsePrint(m);
    ParsePrint(n);
    SuffixFromTheEnd(a, m);
    SuffixFromTheEnd(b, n);
    if |pm| == |pn| {
      var i := DifferSomewhere(pm, pn);
    } else if |pm| < |pn| {
      assert IsDigit(pn[|pn| - 1 - |pm|]);
    } else {
      assert IsDigit(pm[|pm| - 1 - |pn|]);
    }
  }

  lemma LowerKeepsSuffix(n: nat)
    ensures Lower(Suffix(n)) == Suffix(n)
  {
  }

  lemma CandidatesDiffer(wanted: string)
    ensures DistinctFrom(CandidateKey(wanted), 2)
  {
    var key := CandidateKey(wanted);
    forall m: nat, n: nat {:trigger key(m), key(n)} | 2 <= m < n ensures key(m) != key(n) {
      var a, b := TrimEnd(Head(wanted, LABEL_MAX - |Suffix(m)|)), TrimEnd(Head(wanted, LABEL_MAX - |Suffix(n)|));
      LowerConcat(a, Suffix(m));
      LowerConcat(b, Suffix(n));
      LowerKeepsSuffix(m);
      LowerKeepsSuffix(n);
      SuffixesDiffer(Lower(a), Lower(b), m, n);
    }
  }

  // ---------------------------------------------------------------- merged labels

  /** `n` is the first slot whose label nobody uses. */
  ghost predicate FirstFree(wanted: string, taken: set<string>, n: nat) {
    && 1 <= n
    && Lower(Candidate(wanted, n)) !in taken
    && forall m :: 1 <= m < n ==> Lower(Candidate(wanted, m)) in taken
  }

  function Wanted(sourceName: string, a: Account): string {
    Trim(if a.tag.Some? then a.tag.value else sourceName)
  }

  function TargetKeys(target: seq<Account>): set<string> {
    if target == [] then {}
    else
      var a := target[|target| - 1];
      TargetKeys(target[..|target| - 1]) + if a.tag.Some? then {Lower(a.tag.value)} else {}
  }

  function NewKeys(r: seq<Relabel>): set<string> {
    if r == [] then {} else NewKeys(r[..|r| - 1]) + {Lower(r[|r| - 1].tag)}
  }

  lemma {:induction false} TargetKeysAreThose(target: seq<Account>, j: nat)
    requires j < |target| && target[j].tag.Some?
    ensures Lower(target[j].tag.value) in TargetKeys(target)
  {
    if j < |target| - 1 {
      TargetKeysAreThose(target[..|target| - 1], j);
    }
  }

  lemma {:induction false} NewKeysAreThose(r: seq<Relabel>, j: nat)
    requires j < |r|
    ensures Lower(r[j].tag) in NewKeys(r)
  {
    if j < |r| - 1 {
      NewKeysAreThose(r[..|r| - 1], j);
    }
  }

  lemma {:induction false} FewTargetKeys(target: seq<Account>)
    ensures |TargetKeys(target)| <= |target|
  {
    if target != [] {
      FewTargetKeys(target[..|target| - 1]);
    }
  }

  lemma {:induction false} FewNewKeys(r: seq<Relabel>)
    ensures |NewKeys(r)| <= |r|
  {
    if r != [] {
      FewNewKeys(r[..|r| - 1]);
    }
  }

  /** Every source account in turn gets the first label free among the target's and the new ones. */
  ghost predicate IsMergeOf(sourceName: string, source: seq<Account>, target: seq<Account>, r: seq<Relabel>) {
    && |r| == |source|
    && forall i :: 0 <= i < |r| ==>
         && r[i].uuid == source[i].uuid
         && IsFreeTag(Wanted(sourceName, source[i]), TargetKeys(target) + NewKeys(r[..i]), r[i].tag)
  }

  ghost predicate IsFreeTag(wanted: string, taken: set<string>, tag: string) {
    exists n :: tag == Candidate(wanted, n) && FirstFree(wanted, taken, n)
  }

  /** The suffix search of one account; it ends because the taken labels run out. */
  method FreeTag(wanted: string, taken: set<string>) returns (tag: string)
    ensures IsFreeTag(wanted, taken, tag)
  {
    hide FitLabel, Suffix, Lower, DistinctFrom;
    CandidatesDiffer(wanted);
    tag := FitLabel(wanted, "");
    var n := 2;
    while Lower(tag) in taken
      invariant n >= 2 && tag == Candidate(wanted, n - 1)
      invariant forall m :: 1 <= m < n - 1 ==> Lower(Candidate(wanted, m)) in taken
      decreases |taken| + 2 - n
    {
      AllTakenMeansMany(CandidateKey(wanted), 2, n, taken);
      tag := FitLabel(wanted, Suffix(n));
      n := n + 1;
    }
    assert FirstFree(wanted, taken, n - 1);
  }

  lemma {:induction false} OneMoreRelabel(sourceName: string, source: seq<Account>, target: seq<Account>,
                                          r: seq<Relabel>, a: Account,
                       tag: string)
    ensures IsMergeOf(sourceName, source, target, r)
            && IsFreeTag(Wanted(sourceName, a), TargetKeys(target) + NewKeys(r), tag)
            ==> IsMergeOf(sourceName, source + [a], target, r + [Relabel(a.uuid, tag)])
    ensures NewKeys(r + [Relabel(a.uuid, tag)]) == NewKeys(r) + {Lower(tag)}
  {
    hide IsFreeTag, Wanted, TargetKeys, Lower;
    var more := r + [Relabel(a.uuid, tag)];
    assert more[..|r|] == r;
    assert forall k :: 0 <= k < |r| ==> more[..k] == r[..k];
  }

  method MergedLabels(sourceName: string, source: seq<Account>, target: seq<Account>) returns (r: seq<Relabel>)
    ensures IsMergeOf(sourceName, source, target, r)
  {
    hide IsFreeTag, Wanted, TargetKeys, NewKeys, Lower;
    var taken := TargetKeys(target);
    r := [];
    assert NewKeys([]) == {} by { FewNewKeys([]); }
    for i := 0 to |source|
      invariant IsMergeOf(sourceName, source[..i], target, r)
      invariant taken == TargetKeys(target) + NewKeys(r)
    {
      var wanted := Wanted(sourceName, source[i]);
      var tag := FreeTag(wanted, taken);
      OneMoreRelabel(sourceName, source[..i], target, r, source[i], tag);
      assert source[..i + 1] == source[..i] + [source[i]];
      taken := taken + {Lower(tag)};
      r := r + [Relabel(source[i].uuid, tag)];
    }
    assert source[..|source|] == source;
  }

  /** A slot is reached only past as many taken labels, so its number is small. */
  lemma FirstFreeIsNear(wanted: string, taken: set<string>, n: nat)
    requires FirstFree(wanted, taken, n)
    ensures n <= |taken| + 2
  {
    CandidatesDiffer(wanted);
    if n > 2 {
      AllTakenMeansMany(CandidateKey(wanted), 2, n, taken);
    }
  }

  lemma FitLabelLength(base: string, suffix: string)
    requires |suffix| <= LABEL_MAX
    ensures |FitLabel(base, suffix)| <= LABEL_MAX
  {
  }

  /** A JavaScript array holds fewer than 2^32 elements. */
  const ARRAY_MAX: nat := 0x1_0000_0000

  lemma NearSlotFits(wanted: string, n: nat)
    requires n <= 2 * ARRAY_MAX
    ensures |Candidate(wanted, n)| <= LABEL_MAX
  {
    if n > 1 {
      assert Pow10(1) == 10 && Pow10(2) == 100 && Pow10(3) == 1_000 && Pow10(4) == 10_000 && Pow10(5) == 100_000
        && Pow10(6) == 1_000_000 && Pow10(7) == 10_000_000 && Pow10(8) == 100_000_000
        && Pow10(9) == 1_000_000_000 && Pow10(10) == 10_000_000_000;
      PrintLength(n, 10);
      FitLabelLength(wanted, Suffix(n));
    } else {
      FitLabelLength(wanted, "");
    }
  }

  /**
   * The labels a merge hands out are at most 64 characters, differ from each other and from every
   * label on the target in more than case, even when cutting makes the bases equal.
   */
  lemma MergedLabelsAreUsable(sourceName: string, source: seq<Account>, target: seq<Account>, r: seq<Relabel>)
    requires IsMergeOf(sourceName, source, target, r)
    ensures forall i, j :: 0 <= i < j < |r| ==> Lower(r[i].tag) != Lower(r[j].tag)
    ensures forall i, j :: 0 <= i < |r| && 0 <= j < |target| ==> Key(target[j].tag) != Some(Lower(r[i].tag))
    ensures |source| < ARRAY_MAX && |target| < ARRAY_MAX ==> forall i :: 0 <= i < |r| ==> |r[i].tag| <= LABEL_MAX
  {
    forall i, j | 0 <= i < j < |r| ensures Lower(r[i].tag) != Lower(r[j].tag) {
      assert r[..j][i] == r[i];
      NewKeysAreThose(r[..j], i);
    }
    forall i, j | 0 <= i < |r| && 0 <= j < |target| ensures Key(target[j].tag) != Some(Lower(r[i].tag)) {
      if target[j].tag.Some? {
        TargetKeysAreThose(target, j);
      }
    }
    if |source| < ARRAY_MAX && |target| < ARRAY_MAX {
      forall i | 0 <= i < |r| ensures |r[i].tag| <= LABEL_MAX {
        var wanted, taken := Wanted(sourceName, source[i]), TargetKeys(target) + NewKeys(r[..i]);
        var n :| r[i].tag == Candidate(wanted, n) && FirstFree(wanted, taken, n);
        FirstFreeIsNear(wanted, taken, n);
        FewTargetKeys(target);
        FewNewKeys(r[..i]);
        NearSlotFits(wanted, n);
      }
    }
  }

  // ---------------------------------------------------------------- which label an account gets

  /** The account's own label or else the provider's name, without blanks around it. */
  ghost predicate AsksFor(sourceName: string, a: Account, text: string) {
    (a.tag.Some? ==> text == Trim(a.tag.value)) && (a.tag.None? ==> text == Trim(sourceName))
  }

  /** Somebody on the target, or a source account before, has the label already. */
  ghost predicate Clashes(target: seq<Account>, earlier: seq<Relabel>, tag: string) {
    || (exists j :: 0 <= j < |target| && target[j].tag.Some? && Lower(target[j].tag.value) == Lower(tag))
    || (exists j :: 0 <= j < |earlier| && Lower(earlier[j].tag) == Lower(tag))
  }

  /** The longest beginning of `text` that leaves room for `suffix`, blanks at its end dropped. */
  ghost predicate IsCut(text: string, suffix: string, tag: string) {
    exists k, room ::
      && 0 <= k <= room <= |text| && tag == text[..k] + suffix
      && room + |suffix| <= 64 && (room < |text| ==> room + |suffix| == 64)
      && Blank(text[k..room]) && (k > 0 ==> !IsSpace(text[k - 1]))
  }

  function Numbered(n: nat): string {
    if n <= 1 then "" else " (" + Print(n) + ")"
  }

  /** The text under this number is somebody's label. */
  ghost predicate InVain(target: seq<Account>, earlier: seq<Relabel>, text: string, m: nat) {
    exists tag :: IsCut(text, Numbered(m), tag) && Clashes(target, earlier, tag)
  }

  lemma CandidateIsCut(text: string, n: nat)
    requires |Numbered(n)| <= 64
    ensures IsCut(text, Numbered(n), Candidate(text, n))
  {
    hide Print, Blank, IsSpace;
    var suffix := Numbered(n);
    var head := Head(text, LABEL_MAX - |suffix|);
    HeadIsPrefix(text, LABEL_MAX - |suffix|);
    TrimEndTrims(head);
    hide Head, TrimEnd;
    var k, room := |TrimEnd(head)|, |head|;
    assert head == text[..room] && TrimEnd(head) == text[..k] && head[k..] == text[k..room];
    assert Candidate(text, n) == text[..k] + suffix;
  }

  lemma {:induction false} TargetKeysIff(target: seq<Account>, key: string)
    ensures key in TargetKeys(target)
            <==> exists j :: 0 <= j < |target| && target[j].tag.Some? && Lower(target[j].tag.value) == key
  {
    hide Lower;
    if target != [] {
      TargetKeysIff(target[..|target| - 1], key);
    }
  }

  lemma {:induction false} NewKeysIff(r: seq<Relabel>, key: string)
    ensures key in NewKeys(r) <==> exists j :: 0 <= j < |r| && Lower(r[j].tag) == key
  {
    hide Lower;
    if r != [] {
      NewKeysIff(r[..|r| - 1], key);
    }
  }

  lemma {:induction false} TakenIffClashes(target: seq<Account>, earlier: seq<Relabel>, tag: string)
    ensures Lower(tag) in TargetKeys(target) + NewKeys(earlier) <==> Clashes(target, earlier, tag)
  {
    hide Lower, TargetKeys, NewKeys;
    TargetKeysIff(target, Lower(tag));
    NewKeysIff(earlier, Lower(tag));
  }

  lemma TrimmedStays(text: string)
    requires |text| <= 64 && Trim(text) == text
    ensures Candidate(text, 1) == text
  {
    hide FitLabel, Suffix, TrimStart, TrimEnd;
    TrimStartTrims(text);
    hide Blank, IsSpace;
    FitsBare(text, "");
  }

  lemma FitsBare(text: string, nothing: string)
    requires |text| <= 64 && TrimEnd(text) == text && nothing == []
    ensures FitLabel(text, nothing) == text
  {
    hide TrimEnd, Head;
    HeadIsPrefix(text, LABEL_MAX - |nothing|);
    assert Head(text, LABEL_MAX - |nothing|) == text;
  }

  lemma TrimTwice(s: string)
    ensures Trim(Trim(s)) == Trim(s)
  {
    TrimmedEnds(s);
    var t := Trim(s);
    NotTrimmedAtStart(t);
    NotTrimmedAtEnd(t);
  }

  lemma TrimmedEnds(s: string)
    ensures var t := Trim(s); t != [] ==> !IsSpace(t[0]) && !IsSpace(t[|t| - 1])
  {
    hide IsSpace, TrimStart, TrimEnd;
    TrimStartTrims(s);
    TrimEndTrims(TrimStart(s));
  }

  lemma NotTrimmedAtStart(t: string)
    requires t != [] ==> !IsSpace(t[0])
    ensures TrimStart(t) == t
  {
    hide IsSpace;
  }

  lemma NotTrimmedAtEnd(t: string)
    requires t != [] ==> !IsSpace(t[|t| - 1])
    ensures TrimEnd(t) == t
  {
    hide IsSpace;
  }

  /** A label nobody has yet is kept as it is, blanks around it aside; an unlabelled account gets the name. */
  lemma FreeLabelIsKept(sourceName: string, source: seq<Account>, target: seq<Account>, r: seq<Relabel>, i: nat,
                        text: string)
    requires IsMergeOf(sourceName, source, target, r) && i < |source|
    requires AsksFor(sourceName, source[i], text) && |text| <= 64 && !Clashes(target, r[..i], text)
    ensures r[i].uuid == source[i].uuid && r[i].tag == text
  {
    hide Trim, Lower, Candidate, TargetKeys, NewKeys, Clashes;
    TrimTwice(if source[i].tag.Some? then source[i].tag.value else sourceName);
    TrimmedStays(text);
    TakenIffClashes(target, r[..i], text);
  }

  /**
   * Every label is the text asked for, cut to 64 characters, bare or numbered from 2 on; it clashes
   * with nothing, and every number below its own would have.
   */
  lemma LabelIsFirstFreeCut(sourceName: string, source: seq<Account>, target: seq<Account>, r: seq<Relabel>, i: nat,
                            text: string)
    requires IsMergeOf(sourceName, source, target, r) && i < |source| && AsksFor(sourceName, source[i], text)
    requires |source| < ARRAY_MAX && |target| < ARRAY_MAX
    ensures !Clashes(target, r[..i], r[i].tag)
    ensures exists n: nat ::
              && 1 <= n && IsCut(text, Numbered(n), r[i].tag)
              && forall m: nat :: 1 <= m < n ==> InVain(target, r[..i], text, m)
  {
    hide Trim, Lower, Candidate, TargetKeys, NewKeys, Clashes, IsCut, Numbered;
    var taken := TargetKeys(target) + NewKeys(r[..i]);
    assert IsFreeTag(text, taken, r[i].tag);
    var n: nat :| r[i].tag == Candidate(text, n) && FirstFree(text, taken, n);
    FirstFreeIsNear(text, taken, n);
    FewTargetKeys(target);
    FewNewKeys(r[..i]);
    TakenIffClashes(target, r[..i], r[i].tag);
    NumberFits(n);
    CandidateIsCut(text, n);
    forall m: nat | 1 <= m < n ensures InVain(target, r[..i], text, m) {
      NumberFits(m);
      CandidateIsCut(text, m);
      TakenIffClashes(target, r[..i], Candidate(text, m));
    }
  }

  lemma NumberFits(n: nat)
    requires n <= 2 * ARRAY_MAX
    ensures |Numbered(n)| <= 64
  {
    assert Pow10(1) == 10 && Pow10(2) == 100 && Pow10(3) == 1_000 && Pow10(4) == 10_000 && Pow10(5) == 100_000
      && Pow10(6) == 1_000_000 && Pow10(7) == 10_000_000 && Pow10(8) == 100_000_000
      && Pow10(9) == 1_000_000_000 && Pow10(10) == 10_000_000_000;
    PrintLength(n, 10);
  }

  /** Two labels are the same to the check if both are missing or differ in case only. */
  lemma SameKeyIff(a: Option<string>, b: Option<string>)
    ensures Key(a) == Key(b) <==> (a.None? && b.None?) || (a.Some? && b.Some? && Lower(a.value) == Lower(b.value))
  {
    hide Lower;
  }

  /** The labels are fixed by these rules: there is one list for every merge. */
  lemma {:induction false} MergeIsDetermined(sourceName: string, source: seq<Account>, target: seq<Account>,
                                             r: seq<Relabel>, q: seq<Relabel>, k: nat)
    requires IsMergeOf(sourceName, source, target, r) && IsMergeOf(sourceName, source, target, q)
    requires k <= |source|
    ensures r[..k] == q[..k]
  {
    hide Candidate, Wanted, TargetKeys, NewKeys, Lower;
    if k > 0 {
      var i := k - 1;
      MergeIsDetermined(sourceName, source, target, r, q, i);
      var wanted, taken := Wanted(sourceName, source[i]), TargetKeys(target) + NewKeys(r[..i]);
      var m :| r[i].tag == Candidate(wanted, m) && FirstFree(wanted, taken, m);
      var n :| q[i].tag == Candidate(wanted, n) && FirstFree(wanted, taken, n);
      assert m == n;
      assert r[..k] == r[..i] + [r[i]] && q[..k] == q[..i] + [q[i]];
    }
  }

  // ---------------------------------------------------------------- passkey names

  function PasskeyName(n: nat): string {
    if n <= 1 then "Passkey" else "Passkey " + Print(n)
  }

  lemma PasskeyNamesDiffer()
    ensures DistinctFrom(PasskeyName, 1)
  {
    forall m: nat, n: nat {:trigger PasskeyName(m), PasskeyName(n)} | 1 <= m < n
      ensures PasskeyName(m) != PasskeyName(n)
    {
      ParsePrint(m);
      ParsePrint(n);
      assert PasskeyName(n)[8..] == Print(n);
      assert m > 1 ==> PasskeyName(m)[8..] == Print(m);
    }
  }

  /** The names in use; an empty or missing name occupies no slot. */
  function TakenNames(existing: seq<Option<string>>): set<string> {
    set i | 0 <= i < |existing| && existing[i].Some? && existing[i].value != "" :: existing[i].value
  }

  /** The lowest free slot, so the name of a deleted passkey is used again. */
  method NextPasskeyName(existing: seq<Option<string>>) returns (name: string)
    ensures name !in TakenNames(existing)
    ensures exists n :: 1 <= n <= |TakenNames(existing)| + 1 && name == PasskeyName(n)
                     && forall m :: 1 <= m < n ==> PasskeyName(m) in TakenNames(existing)
    ensures Some(name) !in existing
    ensures name == "Passkey" || exists n: nat :: n >= 2 && name == "Passkey " + Print(n) && NumbersTaken(existing, n)
  {
    var taken := TakenNames(existing);
    PasskeyNamesDiffer();
    if "Passkey" !in taken {
      assert PasskeyName(1) == "Passkey";
      TakenNameIff(existing, "Passkey");
      return "Passkey";
    }
    var n := 2;
    while "Passkey " + Print(n) in taken
      invariant n >= 2 && forall m :: 1 <= m < n ==> PasskeyName(m) in taken
      decreases |taken| + 2 - n
    {
      assert PasskeyName(n) == "Passkey " + Print(n);
      n := n + 1;
      AllTakenMeansMany(PasskeyName, 1, n, taken);
    }
    AllTakenMeansMany(PasskeyName, 1, n, taken);
    name := "Passkey " + Print(n);
    assert name == PasskeyName(n);
    TakenNameIff(existing, name);
    TakenNameIff(existing, "Passkey");
    forall m: nat | 2 <= m < n ensures Some("Passkey " + Print(m)) in existing {
      assert PasskeyName(m) in TakenNames(existing);
      TakenNameIff(existing, PasskeyName(m));
    }
    assert PasskeyName(1) in TakenNames(existing);
    assert NumbersTaken(existing, n);
  }

  /** The plain name and all numbers from 2 to below `n` are in use. */
  ghost predicate NumbersTaken(existing: seq<Option<string>>, n: nat) {
    Some("Passkey") in existing && forall m: nat :: 2 <= m < n ==> Some("Passkey " + Print(m)) in existing
  }

  lemma TakenNameIff(existing: seq<Option<string>>, name: string)
    ensures name in TakenNames(existing) <==> name != "" && Some(name) in existing
  {
    assert forall i :: 0 <= i < |existing| && existing[i] == Some(name) && name != "" ==> name in TakenNames(existing);
  }
}
