/**
 * The watcher's pure helpers: invite-link parsing, message deep links, bounded previews,
 * the group/user discriminator, the required-keyword list and the classification of a
 * group identifier, together with the platform lookups they hand identifiers to.
 */
module Utils {
  import opened Wrappers
  import opened PyStr

  /** Python truthiness of an optional integer id (`None` and `0` are both "unset"). */
  predicate Truthy(o: Option<int>) {
    o.Some? && o.value != 0
  }

  // ---------------------------------------------------------------------------------------------
  // Invite links

  /**
   * `extract_invite_hash`: the hash of a `.../joinchat/<hash>` or `t.me/+<hash>` invite link,
   * cut at the first `?`; `None` for anything else.
   */
  function ExtractInviteHash(link: string): (r: Option<string>)
    ensures link == [] ==> r == None
    ensures r.Some? ==> '?' !in r.value
    ensures r.Some? <==> link != [] && (Contains(Strip(link), "joinchat") || Contains(Strip(link), "/+"))
  {
    if link == [] then None
    else
      var s := Strip(link);
      if Contains(s, "joinchat") then Some(CutAt(AfterLast(s, '/'), '?'))
      else if Contains(s, "/+") || StartsWith(s, "https://t.me/+") then
        assert StartsWith(s, "https://t.me/+") ==> OccursAt(s, "/+", 12);
        Some(CutAt(AfterFirst(s, '+'), '?'))
      else None
  }

  /** A `joinchat` link yields the text after its last `/`, up to the first `?`. */
  lemma JoinchatHashShape(link: string)
    requires link != [] && Contains(Strip(link), "joinchat")
    ensures var h := ExtractInviteHash(link).value;
      var tail := AfterLast(Strip(link), '/');
      '/' !in h && '?' !in h && StartsWith(tail, h) && (|h| < |tail| ==> tail[|h|] == '?')
  {
  }

  /** A `/+` link without `joinchat` yields the text after its first `+`, up to the first `?`. */
  lemma PlusHashShape(link: string)
    requires link != [] && !Contains(Strip(link), "joinchat") && Contains(Strip(link), "/+")
    ensures var s := Strip(link);
      var h := ExtractInviteHash(link).value;
      var tail := AfterFirst(s, '+');
      '+' in s && '+' !in s[..|s| - |tail| - 1] && s[|s| - |tail| - 1] == '+'
      && '?' !in h && StartsWith(tail, h) && (|h| < |tail| ==> tail[|h|] == '?')
  {
    var s := Strip(link);
    var i :| 0 <= i <= |s| - 2 && OccursAt(s, "/+", i);
    assert s[i + 1] == "/+"[1] == '+';
  }

  /** A substring starting with a character the prefix lacks lies in the suffix. */
  lemma ContainsAfterPrefix(p: string, h: string, sub: string)
    requires sub != [] && sub[0] !in p && Contains(p + h, sub)
    ensures Contains(h, sub)
  {
    var s := p + h;
    var i :| 0 <= i <= |s| - |sub| && OccursAt(s, sub, i);
    assert s[i] == sub[0];
    assert i >= |p|;
    assert s[i..i + |sub|] == h[i - |p|..i - |p| + |sub|];
    assert OccursAt(h, sub, i - |p|);
  }

  /** Cutting `h + query` at the first `?` gives back `h` when the query is empty or starts with `?`. */
  lemma CutQuery(h: string, query: string)
    requires '?' !in h && (query == [] || query[0] == '?')
    ensures CutAt(h + query, '?') == h
  {
    var x := h + query;
    if query != [] {
      assert x[|h|] == '?' && x[..|h|] == h;
      IndexOfAt(x, '?', |h|);
    }
  }

  /** A link without surrounding whitespace is read as it is. */
  lemma StripLink(pre: string, rest: string)
    requires pre != [] && !IsSpace(pre[0]) && NoSpace(rest) && (rest == [] ==> !IsSpace(pre[|pre| - 1]))
    ensures Strip(pre + rest) == pre + rest
  {
    var s := pre + rest;
    if rest != [] { assert s[|s| - 1] == rest[|rest| - 1]; }
    StripKeeps(s);
  }

  /** A `t.me/+` invite link gives back its hash, whatever query string follows it. */
  lemma PlusLinkRoundTrip(h: string, query: string)
    requires h != [] && '?' !in h && NoSpace(h + query) && !Contains(h + query, "joinchat")
    requires query == [] || query[0] == '?'
    ensures ExtractInviteHash("https://t.me/+" + h + query) == Some(h)
  {
    var pre := "https://t.me/+";
    var x := h + query;
    var s := pre + x;
    assert "https://t.me/+" + h + query == s;
    StripLink(pre, x);
    if Contains(s, "joinchat") {
      ContainsAfterPrefix(pre, x, "joinchat");
    }
    assert s[..|pre|] == pre;
    assert s[13] == '+' && s[..13] == pre[..13];
    IndexOfAt(s, '+', 13);
    assert AfterFirst(s, '+') == x;
    CutQuery(h, query);
  }

  /** A `joinchat/` invite link gives back its hash, whatever query string follows it. */
  lemma JoinchatLinkRoundTrip(h: string, query: string)
    requires h != [] && '?' !in h && '/' !in h + query && NoSpace(h + query)
    requires query == [] || query[0] == '?'
    ensures ExtractInviteHash("https://t.me/joinchat/" + h + query) == Some(h)
  {
    var pre := "https://t.me/joinchat/";
    var x := h + query;
    var s := pre + x;
    assert "https://t.me/joinchat/" + h + query == s;
    assert s[13..21] == "joinchat";
    assert OccursAt(s, "joinchat", 13);
    assert s[21] == '/' && s[22..] == x;
    LastIndexOfAt(s, '/', 21);
    StripLink(pre, x);
    assert ExtractInviteHash(s) == Some(CutAt(AfterLast(s, '/'), '?'));
    assert AfterLast(s, '/') == x;
    CutQuery(h, query);
  }

  // ---------------------------------------------------------------------------------------------
  // Message links

  /**
   * The chat part of a `t.me/c/` link: the decimal form of the peer id with a leading `-100`
   * stripped, or else the decimal form of its absolute value.
   */
  function LinkChatPart(peerId: int): (c: string)
    ensures AllDigits(c)
    ensures StartsWith(IntToString(peerId), "-100") ==> peerId < 0 && -peerId == 100 * Pow10(|c|) + ValueOf(c)
    ensures !StartsWith(IntToString(peerId), "-100") ==> c != [] && ValueOf(c) == Abs(peerId)
  {
    var s := IntToString(peerId);
    if StartsWith(s, "-100") then
      HundredDigits(peerId);
      s[4..]
    else IntToString(Abs(peerId))
  }

  /** What follows a leading `-100` in a peer id's decimal form is digits worth the rest of it. */
  lemma HundredDigits(peerId: int)
    requires StartsWith(IntToString(peerId), "-100")
    ensures var c := IntToString(peerId)[4..];
      peerId < 0 && AllDigits(c) && -peerId == 100 * Pow10(|c|) + ValueOf(c)
  {
    var c := IntToString(peerId)[4..];
    HundredSplit(peerId);
    HundredValue(c);
  }

  lemma HundredSplit(peerId: int)
    requires StartsWith(IntToString(peerId), "-100")
    ensures peerId < 0 && DigitsOf(-peerId) == "100" + IntToString(peerId)[4..]
    ensures AllDigits(IntToString(peerId)[4..])
  {
    var s := IntToString(peerId);
    var d := DigitsOf(-peerId);
    assert s == "-" + d;
    assert s[1..] == d && s[1..4] == "100";
    assert d == s[1..4] + s[4..];
    assert forall i :: 0 <= i < |s| - 4 ==> s[4..][i] == d[i + 3];
  }

  lemma HundredValue(c: string)
    requires AllDigits(c)
    ensures ValueOf("100" + c) == 100 * Pow10(|c|) + ValueOf(c)
  {
    ValueOfHundred();
    ValueOfConcat("100", c);
  }

  lemma ValueOfHundred()
    ensures AllDigits("100") && ValueOf("100") == 100
  {
    assert "100"[..2] == "10" && "10"[..1] == "1" && "1"[..0] == [];
  }

  /** `build_message_link`: `None` unless both ids are non-zero. */
  function BuildMessageLink(peerId: int, messageId: int): (r: Option<string>)
    ensures r.None? <==> peerId == 0 || messageId == 0
    ensures r.Some? ==> r.value == "https://t.me/c/" + LinkChatPart(peerId) + "/" + IntToString(messageId)
  {
    if peerId == 0 || messageId == 0 then None
    else Some("https://t.me/c/" + LinkChatPart(peerId) + "/" + IntToString(messageId))
  }

  /** `k` decimal digits of `b`, with leading zeros. */
  function PadDigits(b: nat, k: nat): (s: string)
    ensures |s| == k && AllDigits(s)
  {
    if k == 0 then [] else PadDigits(b / 10, k - 1) + [DigitChar(b % 10)]
  }

  lemma {:induction false} PadDigitsValue(b: nat, k: nat)
    requires b < Pow10(k)
    ensures ValueOf(PadDigits(b, k)) == b
  {
    if k > 0 {
      PadDigitsValue(b / 10, k - 1);
      var s := PadDigits(b, k);
      assert s[..|s| - 1] == PadDigits(b / 10, k - 1);
    }
  }

  /** `a * 10^k`, written so that each step is a multiplication by ten. */
  function Shifted(a: nat, k: nat): (r: nat)
    ensures k > 0 ==> r >= 10 * a
  {
    if k == 0 then a else 10 * Shifted(a, k - 1)
  }

  /** The decimal form of `a * 10^k + b` is that of `a` followed by `k` digits of `b`. */
  lemma {:induction false} DigitsOfShift(a: nat, b: nat, k: nat)
    requires a >= 1 && b < Pow10(k)
    ensures DigitsOf(Shifted(a, k) + b) == DigitsOf(a) + PadDigits(b, k)
  {
    if k > 0 {
      ShiftDiv(a, b, k);
      DigitsOfShift(a, b / 10, k - 1);
      ShiftStep(a, b, k);
    }
  }

  lemma ShiftStep(a: nat, b: nat, k: nat)
    requires a >= 1 && k > 0 && b < Pow10(k)
    requires DigitsOf(Shifted(a, k - 1) + b / 10) == DigitsOf(a) + PadDigits(b / 10, k - 1)
    ensures DigitsOf(Shifted(a, k) + b) == DigitsOf(a) + PadDigits(b, k)
  {
    ShiftDiv(a, b, k);
    var n := Shifted(a, k) + b;
    var m := Shifted(a, k - 1) + b / 10;
    assert n / 10 == m;
    assert DigitsOf(n / 10) == DigitsOf(m);
    DigitsStep(n, a, b, k);
  }

  lemma ShiftDiv(a: nat, b: nat, k: nat)
    requires a >= 1 && k > 0 && b < Pow10(k)
    ensures (Shifted(a, k) + b) / 10 == Shifted(a, k - 1) + b / 10
    ensures (Shifted(a, k) + b) % 10 == b % 10
    ensures Shifted(a, k) + b >= 10 && b / 10 < Pow10(k - 1)
  {
    assert Pow10(k) == 10 * Pow10(k - 1);
  }

  lemma DigitsStep(n: nat, a: nat, b: nat, k: nat)
    requires k > 0 && n >= 10 && n % 10 == b % 10
    requires DigitsOf(n / 10) == DigitsOf(a) + PadDigits(b / 10, k - 1)
    ensures DigitsOf(n) == DigitsOf(a) + PadDigits(b, k)
  {
    assert DigitsOf(n) == DigitsOf(n / 10) + [DigitChar(n % 10)];
  }

  /**
   * For a channel, whose peer id is `-(10^12 + id)` with a ten-digit `id`, the link carries
   * exactly the channel id.
   */
  lemma ChannelLinkRecoversId(channelId: nat)
    requires 1_000_000_000 <= channelId < 10_000_000_000
    ensures LinkChatPart(-(1_000_000_000_000 + channelId)) == DigitsOf(channelId)
  {
    var p := -(1_000_000_000_000 + channelId);
    ChannelDigits(channelId);
    LinkOfHundred(p, DigitsOf(channelId));
  }

  /** A channel's peer id, negated, is `100` followed by the ten digits of the channel id. */
  lemma ChannelDigits(channelId: nat)
    requires 1_000_000_000 <= channelId < 10_000_000_000
    ensures DigitsOf(1_000_000_000_000 + channelId) == "100" + DigitsOf(channelId)
  {
    assert Pow10(9) == 1_000_000_000 && Pow10(10) == 10_000_000_000;
    assert Shifted(100, 10) == 1_000_000_000_000;
    DigitsOfShift(100, channelId, 10);
    assert DigitsOf(100) == "100";
    PadOfDigits(channelId, 10);
  }

  /** A peer id whose digits are `100` then `t` links to chat `t`. */
  lemma LinkOfHundred(p: int, t: string)
    requires p < 0 && DigitsOf(-p) == "100" + t
    ensures LinkChatPart(p) == t
  {
    assert IntToString(p) == "-" + ("100" + t);
    HundredPrefix(t);
  }

  lemma HundredPrefix(t: string)
    ensures "-" + ("100" + t) == "-100" + t
    ensures StartsWith("-100" + t, "-100") && ("-100" + t)[4..] == t
  {
    assert ("-100" + t)[..4] == "-100";
  }

  /** `k` digits of a `k`-digit number are its decimal form. */
  lemma {:induction false} PadOfDigits(n: nat, k: nat)
    requires k >= 1 && Pow10(k - 1) <= n < Pow10(k)
    ensures PadDigits(n, k) == DigitsOf(n)
  {
    if k > 1 {
      assert Pow10(k - 1) == 10 * Pow10(k - 2);
      assert Pow10(k) == 10 * Pow10(k - 1);
      assert Pow10(k - 2) <= n / 10 < Pow10(k - 1);
      PadOfDigits(n / 10, k - 1);
    }
  }

  // ---------------------------------------------------------------------------------------------
  // Bounded previews

  const TruncationMarker: string := "\n\U{2026}(truncated)"

  /** Python's `s[:k]`, negative `k` counting from the end. */
  function PyPrefix(s: string, k: int): (r: string)
    ensures StartsWith(s, r)
    ensures 0 <= k <= |s| ==> r == s[..k]
    ensures k < 0 ==> |r| == if |s| + k < 0 then 0 else |s| + k
  {
    if k >= 0 then s[..if k < |s| then k else |s|]
    else s[..if |s| + k < 0 then 0 else |s| + k]
  }

  /** `safe_slice`: empty stays empty, short text is kept, long text is cut and marked. */
  function SafeSlice(text: string, maxLen: int): (r: string)
    ensures text == [] ==> r == []
    ensures text != [] && |text| <= maxLen ==> r == text
    ensures text != [] && |text| > maxLen ==> r == PyPrefix(text, maxLen - 20) + TruncationMarker
  {
    if text == [] then []
    else if |text| <= maxLen then text
    else PyPrefix(text, maxLen - 20) + TruncationMarker
  }

  /** With a bound of at least 20 the preview never exceeds the bound. */
  lemma SafeSliceBound(text: string, maxLen: int)
    requires maxLen >= 20
    ensures |SafeSlice(text, maxLen)| <= maxLen
    ensures |text| > maxLen ==> |SafeSlice(text, maxLen)| == maxLen - 7
    ensures |text| > maxLen ==> StartsWith(SafeSlice(text, maxLen), text[..maxLen - 20])
  {
    assert |TruncationMarker| == 13;
  }

  /** Slicing a preview again changes nothing. */
  lemma SafeSliceIdempotent(text: string, maxLen: int)
    requires maxLen >= 20
    ensures SafeSlice(SafeSlice(text, maxLen), maxLen) == SafeSlice(text, maxLen)
  {
    SafeSliceBound(text, maxLen);
    assert |text| > maxLen ==> SafeSlice(text, maxLen) != [];
  }

  // ---------------------------------------------------------------------------------------------
  // Platform entities

  /** What the platform hands back for an identifier: a group (a Chat or a Channel) or a user. */
  datatype Entity =
    | GroupEnt(id: int, title: string, username: string, peerId: int)
    | UserEnt(id: int, username: string)

  /** The outcome of a platform lookup: an entity or the text of the exception it raised. */
  datatype Resolution = Found(entity: Entity) | Failed(error: string)

  /** The two ways an entity is looked up: by numeric id or by name/link text. */
  datatype Query = ById(n: int) | ByName(name: string)

  /** `ensure_group_entity`: the entity itself when it is a group, else `None`. */
  function EnsureGroupEntity(e: Entity): (r: Option<Entity>)
    ensures r.Some? <==> e.GroupEnt?
    ensures r.Some? ==> r.value == e
  {
    if e.GroupEnt? then Some(e) else None
  }

  /** The title the watcher records for a group: its title, or its id when the title is empty. */
  function GroupTitle(g: Entity): (t: string)
    requires g.GroupEnt?
    ensures t != []
    ensures g.title != [] ==> t == g.title
    ensures g.title == [] ==> ParseInt(t) == Some(g.id)
  {
    ParseIntOfString(g.id);
    if g.title != [] then g.title else IntToString(g.id)
  }

  /** `get_peer_id`: groups carry theirs, a user's is its id. */
  function PeerIdOf(e: Entity): int {
    match e
    case GroupEnt(_, _, _, p) => p
    case UserEnt(id, _) => id
  }

  // ---------------------------------------------------------------------------------------------
  // Group identifiers

  /** How `resolve_group_entity` reads an identifier before asking the platform. */
  datatype GroupIdent =
    | EmptyIdent
    | NumericIdent(n: int)
    | BadNumber(text: string)
    | InviteIdent(hash: string, text: string)
    | NameIdent(text: string)

  /**
   * Empty is refused; a stripped value that is digits after its leading `-`s is a numeric id,
   * read as `int()` reads it (and refused by `int()` when there is more than one `-`); a value
   * with a non-empty invite hash is an invite; anything else is a name.
   */
  function ClassifyGroupIdentifier(value: string): (r: GroupIdent)
    ensures r.EmptyIdent? <==> value == []
    ensures r.InviteIdent? ==> r.hash != [] && Some(r.hash) == ExtractInviteHash(r.text)
    ensures r.BadNumber? ==> |r.text| >= 2 && r.text[0] == '-' && r.text[1] == '-'
    ensures (r.NumericIdent? || r.BadNumber?) <==> value != [] && IsDecimal(LStripChar(Strip(value), '-'))
    ensures r.InviteIdent? <==>
      (value != [] && !IsDecimal(LStripChar(Strip(value), '-'))
       && ExtractInviteHash(Strip(value)).Some? && ExtractInviteHash(Strip(value)).value != [])
    ensures !r.EmptyIdent? && !r.NumericIdent? ==> r.text == Strip(value)
  {
    if value == [] then EmptyIdent
    else
      var s := Strip(value);
      var digits := LStripChar(s, '-');
      if IsDecimal(digits) then
        if |digits| == |s| then NumericIdent(ValueOf(digits))
        else if |digits| == |s| - 1 then NumericIdent(-(ValueOf(digits) as int))
        else
          assert 1 < |s| - |digits|;
          BadNumber(s)
      else
        match ExtractInviteHash(s)
        case Some(h) => if h != [] then InviteIdent(h, s) else NameIdent(s)
        case None => NameIdent(s)
  }

  /** The numeric reading agrees with `int()`: a numeric id is what `int()` returns, a bad number is what it refuses. */
  lemma ClassifyAgreesWithInt(value: string)
    ensures ClassifyGroupIdentifier(value).NumericIdent? ==> ParseInt(value) == Some(ClassifyGroupIdentifier(value).n)
    ensures ClassifyGroupIdentifier(value).BadNumber? ==> ParseInt(value) == None
  {
    if value != [] {
      var s := Strip(value);
      var digits := LStripChar(s, '-');
      if IsDecimal(digits) {
        NumberAgrees(value, s, digits);
      }
    }
  }

  lemma NumberAgrees(value: string, s: string, digits: string)
    requires value != [] && s == Strip(value) && digits == LStripChar(s, '-') && IsDecimal(digits)
    ensures ClassifyGroupIdentifier(value).NumericIdent? ==> ParseInt(value) == Some(ClassifyGroupIdentifier(value).n)
    ensures ClassifyGroupIdentifier(value).BadNumber? ==> ParseInt(value) == None
  {
    if |digits| == |s| {
      assert ClassifyGroupIdentifier(value) == NumericIdent(ValueOf(digits));
      assert digits == s;
      ParseUnsigned(value, s);
    } else if |digits| == |s| - 1 {
      assert ClassifyGroupIdentifier(value) == NumericIdent(-(ValueOf(digits) as int));
      assert s[1..] == digits;
      ParseNegative(value, s);
    } else {
      assert 1 < |s| - |digits|;
      assert ClassifyGroupIdentifier(value) == BadNumber(s);
      ParseDoubleDash(value, s);
    }
  }

  lemma ParseUnsigned(value: string, s: string)
    requires s == Strip(value) && IsDecimal(s)
    ensures ParseInt(value) == Some(ValueOf(s))
  {
  }

  lemma ParseNegative(value: string, s: string)
    requires s == Strip(value) && s != [] && s[0] == '-' && IsDecimal(s[1..])
    ensures ParseInt(value) == Some(-(ValueOf(s[1..]) as int))
  {
  }

  lemma ParseDoubleDash(value: string, s: string)
    requires s == Strip(value) && |s| >= 2 && s[0] == '-' && s[1] == '-'
    ensures ParseInt(value) == None
  {
    assert !IsDigit(s[1..][0]);
  }

  /** A peer id shown by `/listgroups` reads back as that numeric id. */
  lemma ClassifyPeerId(n: int)
    ensures ClassifyGroupIdentifier(IntToString(n)) == NumericIdent(n)
  {
    var s := IntToString(n);
    var d := DigitsOf(Abs(n));
    if n < 0 {
      assert s[1..] == d;
      assert LStripChar(s, '-') == d;
    } else {
      assert LStripChar(s, '-') == d;
    }
    StripKeeps(s);
  }

  /** The message of the `ValueError` `int()` raises on `s`. */
  function IntError(s: string): string {
    "invalid literal for int() with base 10: '" + s + "'"
  }

  /** `resolve_group_entity`, with the platform's answers as functions of the query. */
  function ResolveGroupEntity(value: string, lookup: Query -> Resolution, joinInvite: string -> Option<Entity>): (r: Resolution)
    ensures value == [] ==> r == Failed("Empty group identifier.")
    ensures var c := ClassifyGroupIdentifier(value);
      c.BadNumber? ==> r == Failed(IntError(Strip(value)))
    ensures var c := ClassifyGroupIdentifier(value);
      c.NumericIdent? ==> r == lookup(ById(c.n))
    ensures var c := ClassifyGroupIdentifier(value);
      c.InviteIdent? ==> r == if joinInvite(c.hash).Some? then Found(joinInvite(c.hash).value) else lookup(ByName(Strip(value)))
    ensures var c := ClassifyGroupIdentifier(value);
      c.NameIdent? ==> r == lookup(ByName(Strip(value)))
  {
    match ClassifyGroupIdentifier(value)
    case EmptyIdent => Failed("Empty group identifier.")
    case BadNumber(s) => Failed(IntError(s))
    case NumericIdent(n) => lookup(ById(n))
    case InviteIdent(h, s) => (if joinInvite(h).Some? then Found(joinInvite(h).value) else lookup(ByName(s)))
    case NameIdent(s) => lookup(ByName(s))
  }

  /** Resolving a listed peer id asks the platform for exactly that id. */
  lemma ResolvePeerId(n: int, lookup: Query -> Resolution, joinInvite: string -> Option<Entity>)
    ensures ResolveGroupEntity(IntToString(n), lookup, joinInvite) == lookup(ById(n))
  {
    ClassifyPeerId(n);
  }

  /** How `/setuser` and `resolve_user` ask for a user: by id when all digits, else by name. */
  function UserQuery(who: string): (q: Query)
    ensures q.ById? <==> IsDecimal(who)
    ensures q.ByName? ==> q.name == who
    ensures q.ById? ==> q.n >= 0 && IntToString(q.n) == DigitsOf(ValueOf(who))
  {
    if IsDecimal(who) then ById(ValueOf(who)) else ByName(who)
  }

  // ---------------------------------------------------------------------------------------------
  // Required keywords

  predicate IsKeyword(k: string) {
    k != [] && ',' !in k && NoUpper(k) && !IsSpace(k[0]) && !IsSpace(k[|k| - 1])
  }

  /** One normalised keyword per piece that is not blank, in order. */
  function KeepKeywords(pieces: seq<string>): (r: seq<string>)
    requires forall j :: 0 <= j < |pieces| ==> ',' !in pieces[j]
    ensures forall k :: k in r ==> IsKeyword(k)
  {
    if pieces == [] then []
    else
      var rest := KeepKeywords(pieces[1..]);
      var t := Strip(pieces[0]);
      if t != [] then
        PieceKeyword(pieces[0]);
        [Lower(t)] + rest
      else rest
  }

  /** A comma-free piece that is not blank gives a keyword. */
  lemma PieceKeyword(piece: string)
    requires ',' !in piece && Strip(piece) != []
    ensures IsKeyword(Lower(Strip(piece)))
  {
    var t := Strip(piece);
    StripMembers(piece, ',');
    assert ',' !in t && !IsSpace(t[0]) && !IsSpace(t[|t| - 1]);
    LowerKeyword(t);
  }

  /** Lower-casing a stripped, comma-free, non-blank piece gives a keyword. */
  lemma LowerKeyword(t: string)
    requires t != [] && ',' !in t && !IsSpace(t[0]) && !IsSpace(t[|t| - 1])
    ensures IsKeyword(Lower(t))
  {
    var k := Lower(t);
    assert k[0] == LowerChar(t[0]) && k[|k| - 1] == LowerChar(t[|t| - 1]);
  }

  /** Some piece that is not blank normalises to `k`. */
  predicate KeptFrom(pieces: seq<string>, k: string) {
    exists p :: p in pieces && Strip(p) != [] && k == Lower(Strip(p))
  }

  /** A keyword is kept exactly when some non-blank piece normalises to it. */
  lemma {:induction false} KeepKeywordsMembers(pieces: seq<string>, k: string)
    requires forall j :: 0 <= j < |pieces| ==> ',' !in pieces[j]
    ensures k in KeepKeywords(pieces) <==> KeptFrom(pieces, k)
  {
    if pieces != [] {
      KeepKeywordsMembers(pieces[1..], k);
      assert forall p :: p in pieces <==> p == pieces[0] || p in pieces[1..];
    }
  }

  /** The keyword list: comma pieces, stripped and lower-cased, blanks dropped. */
  function ParseKeywords(raw: string): (r: seq<string>)
    ensures forall k :: k in r ==> IsKeyword(k)
    ensures forall k :: k in r <==> KeptFrom(Split(Strip(raw), ','), k)
  {
    var pieces := Split(Strip(raw), ',');
    forall k | true
      ensures k in KeepKeywords(pieces) <==> KeptFrom(pieces, k)
    {
      KeepKeywordsMembers(pieces, k);
    }
    KeepKeywords(pieces)
  }

}
