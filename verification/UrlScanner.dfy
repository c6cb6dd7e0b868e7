/** Which stored files a node's content refers to: public S3 URLs found in its text. */
module UrlScanner {
  import opened Wrappers

  // ── S3 addresses ───────────────────────────────────────────────────────────

  datatype Bucket = Bucket(bucket: string, region: string)

  function PublicUrl(b: Bucket, key: string): string {
    "https://" + b.bucket + ".s3." + b.region + ".amazonaws.com/" + key
  }

  /** `None` stands for the error thrown on an address of another shape. */
  function ExtractKeyFromUrl(b: Bucket, url: string): Option<string> {
    var prefix := PublicUrl(b, "");
    if prefix <= url then Some(url[|prefix|..]) else None
  }

  lemma KeyRoundTrip(b: Bucket, key: string)
    ensures PublicUrl(b, key) == PublicUrl(b, "") + key
    ensures ExtractKeyFromUrl(b, PublicUrl(b, key)) == Some(key)
  {
  }

  /** An address is accepted exactly if it is the public address of the key taken from it. */
  lemma AddressRoundTrip(b: Bucket, url: string)
    ensures ExtractKeyFromUrl(b, url).Some? <==> exists key :: PublicUrl(b, key) == url
    ensures ExtractKeyFromUrl(b, url).Some? ==> PublicUrl(b, ExtractKeyFromUrl(b, url).value) == url
  {
  }

  // ── The scan ───────────────────────────────────────────────────────────────

  /** The characters that end an address: quotes, white space, closing parenthesis, backslash. */
  predicate IsTerminator(c: char) {
    c == '"' || c == '\'' || c == ')' || c == '\\' || IsSpace(c)
  }

  /** The white space of a JavaScript regular expression. */
  predicate IsSpace(c: char) {
    || '\t' <= c <= '\r' || c == ' ' || c == '\U{00A0}' || c == '\U{1680}' || '\U{2000}' <= c <= '\U{200A}'
    || c == '\U{2028}' || c == '\U{2029}' || c == '\U{202F}' || c == '\U{205F}' || c == '\U{3000}' || c == '\U{FEFF}'
  }

  predicate PrefixAt(text: string, prefix: string, i: nat) {
    i + |prefix| <= |text| && text[i..i + |prefix|] == prefix
  }

  /** The pattern matches here: the prefix and at least one character of a key. */
  predicate MatchesAt(text: string, prefix: string, i: nat) {
    PrefixAt(text, prefix, i) && i + |prefix| < |text| && !IsTerminator(text[i + |prefix|])
  }

  /** The end of the run of key characters from here on. */
  function RunEnd(text: string, i: nat): (e: nat)
    requires i <= |text|
    ensures i <= e <= |text|
    ensures forall k :: i <= k < e ==> !IsTerminator(text[k])
    ensures e < |text| ==> IsTerminator(text[e])
    decreases |text| - i
  {
    if i < |text| && !IsTerminator(text[i]) then RunEnd(text, i + 1) else i
  }

  /** A global match: leftmost occurrences first, each as long as it can be, none inside another. */
  function Matches(text: string, prefix: string, i: nat): seq<(nat, nat)>
    decreases |text| - i
  {
    if i >= |text| then []
    else if MatchesAt(text, prefix, i) then
      var e := RunEnd(text, i + |prefix| + 1);
      [(i, e)] + Matches(text, prefix, e)
    else Matches(text, prefix, i + 1)
  }

  /** From `s` to `e` the text is the prefix and a maximal, non-empty run of key characters. */
  ghost predicate IsAddress(text: string, prefix: string, s: nat, e: nat) {
    && PrefixAt(text, prefix, s) && s + |prefix| < e <= |text|
    && (forall k :: s + |prefix| <= k < e ==> !IsTerminator(text[k]))
    && (e < |text| ==> IsTerminator(text[e]))
  }

  lemma MatchIsAddress(text: string, prefix: string, i: nat)
    requires MatchesAt(text, prefix, i)
    ensures IsAddress(text, prefix, i, RunEnd(text, i + |prefix| + 1))
  {
  }

  /** Every match is a maximal address. */
  lemma {:induction false} MatchesAreAddresses(text: string, prefix: string, i: nat)
    ensures forall m :: m in Matches(text, prefix, i) ==> i <= m.0 && IsAddress(text, prefix, m.0, m.1)
    decreases |text| - i
  {
    if i < |text| {
      if MatchesAt(text, prefix, i) {
        MatchIsAddress(text, prefix, i);
        MatchesAreAddresses(text, prefix, RunEnd(text, i + |prefix| + 1));
      } else {
        MatchesAreAddresses(text, prefix, i + 1);
      }
    }
  }

  ghost predicate Apart(ms: seq<(nat, nat)>) {
    forall j, k :: 0 <= j < k < |ms| ==> ms[j].1 <= ms[k].0
  }

  lemma ConsApart(m: (nat, nat), rest: seq<(nat, nat)>)
    requires Apart(rest) && forall r :: r in rest ==> m.1 <= r.0
    ensures Apart([m] + rest)
  {
  }

  /** Matches come in the order of the text and do not overlap. */
  lemma {:induction false} MatchesAreApart(text: string, prefix: string, i: nat)
    ensures Apart(Matches(text, prefix, i))
    decreases |text| - i
  {
    if i < |text| {
      if MatchesAt(text, prefix, i) {
        var e := RunEnd(text, i + |prefix| + 1);
        MatchesAreApart(text, prefix, e);
        MatchesAreAddresses(text, prefix, e);
        ConsApart((i, e), Matches(text, prefix, e));
      } else {
        MatchesAreApart(text, prefix, i + 1);
      }
    }
  }

  /** The scan overlooks nothing: wherever the pattern matches, the place lies in one of the matches. */
  lemma {:induction false} ScanOverlooksNothing(text: string, prefix: string, i: nat, p: nat)
    requires i <= p && MatchesAt(text, prefix, p)
    ensures exists m :: m in Matches(text, prefix, i) && m.0 <= p < m.1
    decreases |text| - i
  {
    if MatchesAt(text, prefix, i) {
      var e := RunEnd(text, i + |prefix| + 1);
      if p < e {
        assert (i, e) in Matches(text, prefix, i);
      } else {
        ScanOverlooksNothing(text, prefix, e, p);
      }
    } else {
      ScanOverlooksNothing(text, prefix, i + 1, p);
    }
  }

  /** `new Set(...)` spread into an array: first occurrences, in order. */
  function Distinct(xs: seq<string>): seq<string> {
    if xs == [] then []
    else
      var rest := Distinct(xs[..|xs| - 1]);
      if xs[|xs| - 1] in rest then rest else rest + [xs[|xs| - 1]]
  }

  lemma {:induction false} DistinctHasNoRepeats(xs: seq<string>)
    ensures forall i, j :: 0 <= i < j < |Distinct(xs)| ==> Distinct(xs)[i] != Distinct(xs)[j]
    ensures forall x :: x in Distinct(xs) <==> x in xs
  {
    if xs != [] {
      var n := |xs| - 1;
      DistinctHasNoRepeats(xs[..n]);
      assert xs == xs[..n] + [xs[n]];
    }
  }

  /** What stands between the prefix and the end of a match. */
  function KeyOf(text: string, prefix: string, m: (nat, nat)): string {
    if m.0 + |prefix| <= m.1 <= |text| then text[m.0 + |prefix|..m.1] else ""
  }

  function KeysOf(text: string, prefix: string, ms: seq<(nat, nat)>): seq<string> {
    if ms == [] then [] else [KeyOf(text, prefix, ms[0])] + KeysOf(text, prefix, ms[1..])
  }

  function ReferencedKeys(text: string, prefix: string): seq<string> {
    Distinct(KeysOf(text, prefix, Matches(text, prefix, 0)))
  }

  lemma {:induction false} KeyInKeysOf(text: string, prefix: string, ms: seq<(nat, nat)>, key: string)
    ensures key in KeysOf(text, prefix, ms) <==> exists m :: m in ms && KeyOf(text, prefix, m) == key
  {
    if ms != [] {
      KeyInKeysOf(text, prefix, ms[1..], key);
      assert forall m :: m in ms <==> m == ms[0] || m in ms[1..];
    }
  }

  lemma MatchStartsWithPrefix(text: string, prefix: string, m: (nat, nat))
    requires m in Matches(text, prefix, 0)
    ensures m.0 < m.1 <= |text| && text[m.0..m.1] == prefix + KeyOf(text, prefix, m)
  {
    MatchesAreAddresses(text, prefix, 0);
    assert text[m.0..m.1] == text[m.0..m.0 + |prefix|] + text[m.0 + |prefix|..m.1];
  }

  /** Every match is an address that the S3 service accepts, and the key it gives is the one used. */
  lemma MatchYieldsItsKey(b: Bucket, text: string, m: (nat, nat))
    requires m in Matches(text, PublicUrl(b, ""), 0)
    ensures m.0 < m.1 <= |text|
    ensures ExtractKeyFromUrl(b, text[m.0..m.1]) == Some(KeyOf(text, PublicUrl(b, ""), m))
  {
    MatchStartsWithPrefix(text, PublicUrl(b, ""), m);
    KeyRoundTrip(b, KeyOf(text, PublicUrl(b, ""), m));
  }

  /** A whole address of the key stands in the text, ended by a terminator or the end of the text. */
  ghost predicate Mentions(text: string, prefix: string, key: string, s: nat) {
    && PrefixAt(text, prefix + key, s) && IsKey(key)
    && (s + |prefix + key| < |text| ==> IsTerminator(text[s + |prefix + key|]))
  }

  ghost predicate IsKey(key: string) {
    key != "" && forall i :: 0 <= i < |key| ==> !IsTerminator(key[i])
  }

  lemma AddressMentions(text: string, prefix: string, s: nat, e: nat)
    requires IsAddress(text, prefix, s, e)
    ensures Mentions(text, prefix, KeyOf(text, prefix, (s, e)), s)
  {
  }

  lemma SliceInTwo(text: string, s: nat, n: nat, m: nat)
    requires s + n + m <= |text|
    ensures text[s..s + n] == text[s..s + n + m][..n] && text[s + n..s + n + m] == text[s..s + n + m][n..]
  {
  }

  lemma MentionIsAddress(text: string, prefix: string, key: string, s: nat)
    requires Mentions(text, prefix, key, s)
    ensures IsAddress(text, prefix, s, s + |prefix| + |key|)
    ensures KeyOf(text, prefix, (s, s + |prefix| + |key|)) == key
  {
    var url := text[s..s + |prefix| + |key|];
    assert url == prefix + key;
    SliceInTwo(text, s, |prefix|, |key|);
    assert (prefix + key)[..|prefix|] == prefix && (prefix + key)[|prefix|..] == key;
    forall k | 0 <= k < |key| ensures text[s + |prefix| + k] == key[k] {
      assert url[|prefix| + k] == key[k];
    }
  }

  lemma EndsAreUnique(text: string, prefix: string, s: nat, e: nat, f: nat)
    requires IsAddress(text, prefix, s, e) && IsAddress(text, prefix, s, f)
    ensures e == f
  {
  }

  /** No key repeats, and every key is the whole of an address mentioned in the text. */
  lemma KeysAreMentioned(text: string, prefix: string)
    ensures var keys := ReferencedKeys(text, prefix);
            && (forall i, j :: 0 <= i < j < |keys| ==> keys[i] != keys[j])
            && (forall key :: key in keys ==> exists s :: Mentions(text, prefix, key, s))
  {
    var ms := Matches(text, prefix, 0);
    DistinctHasNoRepeats(KeysOf(text, prefix, ms));
    MatchesAreAddresses(text, prefix, 0);
    forall key | key in ReferencedKeys(text, prefix) ensures exists s :: Mentions(text, prefix, key, s) {
      KeyInKeysOf(text, prefix, ms, key);
      var m :| m in ms && KeyOf(text, prefix, m) == key;
      AddressMentions(text, prefix, m.0, m.1);
    }
  }

  /** An address that begins inside no other address has its key extracted. */
  lemma FreeMentionIsFound(text: string, prefix: string, key: string, s: nat)
    requires Mentions(text, prefix, key, s)
    requires forall p: nat, e: nat :: p < s < e ==> !IsAddress(text, prefix, p, e)
    ensures key in ReferencedKeys(text, prefix)
  {
    MentionIsAddress(text, prefix, key, s);
    ScanOverlooksNothing(text, prefix, 0, s);
    MatchesAreAddresses(text, prefix, 0);
    var ms := Matches(text, prefix, 0);
    var m :| m in ms && m.0 <= s < m.1;
    EndsAreUnique(text, prefix, s, m.1, s + |prefix| + |key|);
    assert m == (s, s + |prefix| + |key|);
    KeyInKeysOf(text, prefix, ms, key);
    DistinctHasNoRepeats(KeysOf(text, prefix, ms));
  }

  // ── Text made of addresses and terminators ─────────────────────────────────

  /** An embedded address and the terminators after it. */
  datatype Part = Part(key: string, gap: string)

  ghost predicate AllTerminators(gap: string) {
    forall i :: 0 <= i < |gap| ==> IsTerminator(gap[i])
  }

  /** Keys have key characters only; gaps are terminators, and only the last may be empty. */
  ghost predicate Separated(parts: seq<Part>) {
    forall i :: 0 <= i < |parts| ==>
      IsKey(parts[i].key) && AllTerminators(parts[i].gap) && (i < |parts| - 1 ==> parts[i].gap != "")
  }

  function TextOf(prefix: string, parts: seq<Part>): string {
    if parts == [] then "" else (prefix + parts[0].key) + (parts[0].gap + TextOf(prefix, parts[1..]))
  }

  function EmbeddedKeys(parts: seq<Part>): seq<string> {
    if parts == [] then [] else [parts[0].key] + EmbeddedKeys(parts[1..])
  }

  lemma FirstCharacter(text: string, prefix: string, i: nat)
    requires PrefixAt(text, prefix, i) && prefix != ""
    ensures text[i] == prefix[0]
  {
  }

  lemma {:induction false} GapsAreSkipped(text: string, prefix: string, i: nat, j: nat)
    requires i <= j <= |text| && prefix != "" && !IsTerminator(prefix[0])
    requires forall k :: i <= k < j ==> IsTerminator(text[k])
    ensures Matches(text, prefix, i) == Matches(text, prefix, j)
    decreases j - i
  {
    if i < j {
      if PrefixAt(text, prefix, i) {
        FirstCharacter(text, prefix, i);
      }
      GapsAreSkipped(text, prefix, i + 1, j);
    }
  }

  /** A mentioned address is matched where it stands, up to its end. */
  lemma MentionMatches(text: string, prefix: string, key: string, at: nat)
    requires Mentions(text, prefix, key, at)
    ensures MatchesAt(text, prefix, at) && RunEnd(text, at + |prefix| + 1) == at + |prefix| + |key|
    ensures KeyOf(text, prefix, (at, at + |prefix| + |key|)) == key
  {
    MentionIsAddress(text, prefix, key, at);
    MatchIsAddress(text, prefix, at);
    EndsAreUnique(text, prefix, at, RunEnd(text, at + |prefix| + 1), at + |prefix| + |key|);
  }

  /** One address at the scan position: it is matched, up to its end, and the terminators after it are skipped. */
  lemma AddressIsMatched(text: string, prefix: string, at: nat, key: string, next: nat)
    requires prefix != "" && !IsTerminator(prefix[0]) && Mentions(text, prefix, key, at)
    requires at + |prefix| + |key| <= next <= |text|
    requires forall k :: at + |prefix| + |key| <= k < next ==> IsTerminator(text[k])
    ensures var m := (at, at + |prefix| + |key|);
            KeyOf(text, prefix, m) == key && Matches(text, prefix, at) == [m] + Matches(text, prefix, next)
  {
    var e := at + |prefix| + |key|;
    MentionMatches(text, prefix, key, at);
    GapsAreSkipped(text, prefix, e, next);
  }

  /** The next part of a well separated text is a mention of its key, followed by terminators. */
  lemma NextPart(text: string, prefix: string, at: nat, parts: seq<Part>)
    requires parts != [] && at <= |text| && text[at..] == TextOf(prefix, parts) && Separated(parts)
    ensures var e := at + |prefix| + |parts[0].key|;
            var next := e + |parts[0].gap|;
            && Mentions(text, prefix, parts[0].key, at)
            && next <= |text| && text[next..] == TextOf(prefix, parts[1..])
            && forall k :: e <= k < next ==> IsTerminator(text[k])
  {
  }

  lemma {:induction false} PartsAreMatched(text: string, prefix: string, at: nat, parts: seq<Part>)
    requires prefix != "" && !IsTerminator(prefix[0])
    requires at <= |text| && text[at..] == TextOf(prefix, parts) && Separated(parts)
    ensures KeysOf(text, prefix, Matches(text, prefix, at)) == EmbeddedKeys(parts)
    decreases |parts|
  {
    if parts != [] {
      var next := at + |prefix| + |parts[0].key| + |parts[0].gap|;
      NextPart(text, prefix, at, parts);
      AddressIsMatched(text, prefix, at, parts[0].key, next);
      PartsAreMatched(text, prefix, next, parts[1..]);
      assert Matches(text, prefix, at)[1..] == Matches(text, prefix, next);
    }
  }

  lemma PrefixStart(b: Bucket)
    ensures PublicUrl(b, "") != "" && PublicUrl(b, "")[0] == 'h'
  {
  }

  /** In text built of addresses separated by terminators the extracted keys are the embedded ones. */
  lemma EmbeddedKeysAreExtracted(b: Bucket, lead: string, parts: seq<Part>)
    requires AllTerminators(lead) && Separated(parts)
    ensures var prefix := PublicUrl(b, "");
            ReferencedKeys(lead + TextOf(prefix, parts), prefix) == Distinct(EmbeddedKeys(parts))
  {
    var prefix := PublicUrl(b, "");
    var text := lead + TextOf(prefix, parts);
    PrefixStart(b);
    GapsAreSkipped(text, prefix, 0, |lead|);
    assert text[|lead|..] == TextOf(prefix, parts);
    PartsAreMatched(text, prefix, |lead|, parts);
  }

  // ── Which characters belong to a key ───────────────────────────────────────

  /** Letters, digits and the signs that keys are made of. */
  predicate IsPlain(c: char) {
    || 'a' <= c <= 'z' || 'A' <= c <= 'Z' || '0' <= c <= '9' || c == '-' || c == '_' || c == '/' || c == '.'
  }

  /** The characters of the pattern's class that end an address, spelled out. */
  predicate EndsAddress(c: char) {
    || c == '"' || c == '\'' || c == ')' || c == '\\' || c == ' ' || c == '\t' || c == '\n' || c == '\r'
    || c == '\U{000B}' || c == '\U{000C}' || c == '\U{00A0}' || c == '\U{1680}' || '\U{2000}' <= c <= '\U{200A}'
    || c == '\U{2028}' || c == '\U{2029}' || c == '\U{202F}' || c == '\U{205F}' || c == '\U{3000}' || c == '\U{FEFF}'
  }

  /** Other signs of Markdown and HTML that the pattern takes for part of the key. */
  predicate StaysInKey(c: char) {
    c == '(' || c == ',' || c == ']' || c == '[' || c == '>' || c == '<' || c == '?' || c == '%' || c == '!' || c == '*'
  }

  predicate AllPlain(key: string) {
    key != "" && forall i :: 0 <= i < |key| ==> IsPlain(key[i])
  }

  lemma FirstIsKept(x: string, xs: seq<string>)
    ensures Distinct([x] + xs) != [] && Distinct([x] + xs)[0] == x
    decreases |xs|
  {
    var all := [x] + xs;
    if xs == [] {
      assert all[..0] == [];
    } else {
      FirstIsKept(x, xs[..|xs| - 1]);
      assert all[..|all| - 1] == [x] + xs[..|xs| - 1];
    }
  }

  /** A text that begins with an address gives its key first. */
  lemma LeadingKeyIsFirst(b: Bucket, key: string, rest: string)
    requires IsKey(key) && (rest != "" ==> IsTerminator(rest[0]))
    ensures var keys := ReferencedKeys(PublicUrl(b, key) + rest, PublicUrl(b, ""));
            keys != [] && keys[0] == key
  {
    var prefix := PublicUrl(b, "");
    var text := PublicUrl(b, key) + rest;
    KeyRoundTrip(b, key);
    PrefixStart(b);
    assert PublicUrl(b, key) == prefix + key;
    assert text[..|prefix + key|] == prefix + key;
    assert Mentions(text, prefix, key, 0);
    AddressIsMatched(text, prefix, 0, key, |prefix| + |key|);
    var ms := Matches(text, prefix, 0);
    assert KeysOf(text, prefix, ms) == [key] + KeysOf(text, prefix, ms[1..]);
    FirstIsKept(key, KeysOf(text, prefix, ms[1..]));
  }

  /** An address followed by a quote, a closing parenthesis, a backslash or white space: the key is all before it. */
  lemma KeyEndsThere(b: Bucket, key: string, c: char, rest: string)
    requires AllPlain(key) && EndsAddress(c)
    ensures var keys := ReferencedKeys(PublicUrl(b, key) + ([c] + rest), PublicUrl(b, ""));
            keys != [] && keys[0] == key
  {
    LeadingKeyIsFirst(b, key, [c] + rest);
  }

  /** Followed by another sign, the key goes on through it. */
  lemma KeyGoesOn(b: Bucket, key: string, c: char, more: string, d: char, rest: string)
    requires AllPlain(key) && StaysInKey(c) && AllPlain(more) && EndsAddress(d)
    ensures var keys := ReferencedKeys(PublicUrl(b, key + [c] + more) + ([d] + rest), PublicUrl(b, ""));
            keys != [] && keys[0] == key + [c] + more
  {
    var whole := key + [c] + more;
    forall i | 0 <= i < |whole| ensures !IsTerminator(whole[i]) {
      if i < |key| {
        assert whole[i] == key[i];
      } else if i > |key| {
        assert whole[i] == more[i - |key| - 1];
      }
    }
    LeadingKeyIsFirst(b, whole, [d] + rest);
  }

  /** The shape of an address, sign by sign. */
  lemma AddressShape()
    ensures PublicUrl(Bucket("b", "r"), "k.png") == "https://b.s3.r.amazonaws.com/k.png"
  {
  }

  // ── From keys to files ─────────────────────────────────────────────────────

  datatype FileRow = FileRow(s3Key: string, workspaceId: string, deleted: bool)

  function FindFileIdsByS3Keys(files: map<string, FileRow>, keys: seq<string>, workspaceId: string): set<string> {
    set id | id in files && files[id].s3Key in keys && files[id].workspaceId == workspaceId && !files[id].deleted
  }

  /** `None` is content that is absent; no address in the text means no query. */
  function ExtractReferencedFileIds(
    b: Bucket, files: map<string, FileRow>, content: Option<string>, workspaceId: string): set<string>
  {
    if content.None? || Matches(content.value, PublicUrl(b, ""), 0) == [] then {}
    else FindFileIdsByS3Keys(files, ReferencedKeys(content.value, PublicUrl(b, "")), workspaceId)
  }

  /** Only live files of the workspace whose address the content mentions are referenced ... */
  lemma ReferencedFilesAreMentioned(
    b: Bucket, files: map<string, FileRow>, content: Option<string>, workspaceId: string, id: string)
    requires id in ExtractReferencedFileIds(b, files, content, workspaceId)
    ensures id in files && files[id].workspaceId == workspaceId && !files[id].deleted
    ensures content.Some? && exists s :: Mentions(content.value, PublicUrl(b, ""), files[id].s3Key, s)
  {
    KeysAreMentioned(content.value, PublicUrl(b, ""));
  }

  /** ... and all of them are whose address begins inside no other address. */
  lemma MentionedFilesAreReferenced(
    b: Bucket, files: map<string, FileRow>, text: string, workspaceId: string, id: string, s: nat)
    requires id in files && files[id].workspaceId == workspaceId && !files[id].deleted
    requires Mentions(text, PublicUrl(b, ""), files[id].s3Key, s)
    requires forall p: nat, e: nat :: p < s < e ==> !IsAddress(text, PublicUrl(b, ""), p, e)
    ensures id in ExtractReferencedFileIds(b, files, Some(text), workspaceId)
  {
    var prefix := PublicUrl(b, "");
    FreeMentionIsFound(text, prefix, files[id].s3Key, s);
    assert KeysOf(text, prefix, []) == [] && Distinct([]) == [];
  }
}
