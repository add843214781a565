/** Searching text for quoted keys, and the same text as segments between its quotes. */
module SnapshotText {
  import opened Wrappers

  const Q := '"'

  predicate NoQuote(s: string) {
    forall i :: 0 <= i < |s| ==> s[i] != Q
  }

  // ---------------------------------------------------------------------------
  // Searching characters
  // ---------------------------------------------------------------------------

  predicate At(t: string, p: nat, needle: string) {
    p + |needle| <= |t| && t[p..p + |needle|] == needle
  }

  /** The first occurrence from position `p` on. */
  function Find(t: string, needle: string, p: nat): (r: Option<nat>)
    ensures r.Some? ==> p <= r.value && r.value + |needle| <= |t|
    decreases |t| - p
  {
    if p + |needle| > |t| then None else if At(t, p, needle) then Some(p) else Find(t, needle, p + 1)
  }

  predicate Contains(t: string, needle: string) {
    Find(t, needle, 0).Some?
  }

  function Quoted(key: string): string {
    [Q] + key + [Q]
  }

  /** What follows the first occurrence. */
  function TextAfter(t: string, needle: string): Option<string> {
    match Find(t, needle, 0)
    case None => None
    case Some(p) => Some(t[p + |needle|..])
  }

  /** What precedes the first occurrence, or everything. */
  function TextUpTo(t: string, needle: string): string {
    match Find(t, needle, 0)
    case None => t
    case Some(p) => t[..p]
  }

  /** The pieces of a split after its first one. */
  function Pieces(t: string, needle: string): seq<string>
    requires needle != ""
    decreases |t|
  {
    match Find(t, needle, 0)
    case None => []
    case Some(p) =>
      var rest := t[p + |needle|..];
      [TextUpTo(rest, needle)] + Pieces(rest, needle)
  }

  /** The ASCII white space. */
  predicate Space(c: char) {
    c == ' ' || '\t' <= c <= '\r'
  }

  function TrimStart(s: string, i: nat): string
    requires i <= |s|
    decreases |s| - i
  {
    if i < |s| && Space(s[i]) then TrimStart(s, i + 1) else s[i..]
  }

  /** The string literal a text starts with. */
  function LeadingLiteral(s: string): Option<string> {
    if s == "" || s[0] != Q then None
    else
      match Find(s[1..], [Q], 0)
      case None => None
      case Some(end) => Some(s[1..][..end])
  }

  /** The string literal that follows the next colon, if one does. */
  function QuotedAfterColon(s: string): Option<string> {
    match Find(s, ":", 0)
    case None => None
    case Some(colon) => LeadingLiteral(TrimStart(s[colon + 1..], 0))
  }

  /** The string value of the first occurrence of a key. */
  function JsonString(t: string, key: string): Option<string> {
    match TextAfter(t, Quoted(key))
    case None => None
    case Some(rest) => QuotedAfterColon(rest)
  }

  // ---------------------------------------------------------------------------
  // Segments
  // ---------------------------------------------------------------------------

  /** A text cut at its quotes. */
  datatype Segs = One(s: string) | More(s: string, rest: Segs)

  function Join(g: Segs): string {
    match g
    case One(s) => s
    case More(s, rest) => s + ([Q] + Join(rest))
  }

  predicate Plain(g: Segs) {
    NoQuote(g.s) && (g.More? ==> Plain(g.rest))
  }

  /** Puts text in front. */
  function Prepend(p: string, g: Segs): Segs {
    match g
    case One(s) => One(p + s)
    case More(s, rest) => More(p + s, rest)
  }

  /** A string literal followed by `g`. */
  function Lit(v: string, g: Segs): Segs {
    More("", More(v, g))
  }

  lemma PrependJoins(p: string, g: Segs)
    ensures Join(Prepend(p, g)) == p + Join(g)
    ensures NoQuote(p) && Plain(g) ==> Plain(Prepend(p, g))
  {
    if g.More? { assert p + g.s + ([Q] + Join(g.rest)) == p + (g.s + ([Q] + Join(g.rest))); }
  }

  lemma LitJoins(v: string, g: Segs)
    ensures Join(Lit(v, g)) == Quoted(v) + Join(g)
    ensures NoQuote(v) && Plain(g) ==> Plain(Lit(v, g))
  {
    assert [Q] + (v + ([Q] + Join(g))) == Quoted(v) + Join(g);
  }

  /** What follows the first segment that equals `key` and is closed by a quote; the first segment
      counts as opened by one. */
  function AfterQ(g: Segs, key: string): Option<Segs> {
    match g
    case One(_) => None
    case More(s, rest) => if s == key then Some(rest) else AfterQ(rest, key)
  }

  function After(g: Segs, key: string): Option<Segs> {
    match g
    case One(_) => None
    case More(_, rest) => AfterQ(rest, key)
  }

  function UpTo(g: Segs, key: string): Segs {
    match g
    case One(s) => g
    case More(s, rest) => if rest.More? && rest.s == key then One(s) else More(s, UpTo(rest, key))
  }

  /** Some segment after the first is `key`, closed by a quote and followed by `tail`. */
  predicate FollowedQ(g: Segs, key: string, tail: string) {
    match g
    case One(_) => false
    case More(s, rest) => (s == key && tail <= rest.s) || FollowedQ(rest, key, tail)
  }

  predicate Followed(g: Segs, key: string, tail: string) {
    match g
    case One(_) => false
    case More(_, rest) => FollowedQ(rest, key, tail)
  }

  // ---------------------------------------------------------------------------
  // Characters and segments agree
  // ---------------------------------------------------------------------------

  lemma {:induction false} FindShift(a: string, b: string, needle: string, p: nat)
    ensures Find(a + b, needle, |a| + p) == (match Find(b, needle, p) case None => None case Some(r) => Some(|a| + r))
    decreases |b| - p
  {
    if p + |needle| <= |b| {
      assert (a + b)[|a| + p..|a| + p + |needle|] == b[p..p + |needle|];
      if !At(b, p, needle) { FindShift(a, b, needle, p + 1); }
    }
  }

  /** Text without quotes holds no occurrence of something that starts with one. */
  lemma {:induction false} FindSkips(a: string, b: string, needle: string, p: nat)
    requires p <= |a| && NoQuote(a) && needle != "" && needle[0] == Q
    ensures Find(a + b, needle, p) == Find(a + b, needle, |a|)
    decreases |a| - p
  {
    if p < |a| {
      if p + |needle| <= |a + b| {
        assert (a + b)[p..p + |needle|][0] == a[p];
        FindSkips(a, b, needle, p + 1);
      } else {
        FindNone(a + b, needle, |a|);
      }
    }
  }

  lemma FindNone(t: string, needle: string, p: nat)
    requires p + |needle| > |t|
    ensures Find(t, needle, p) == None
  {
  }

  /** Where the first segment ends. */
  lemma FirstQuote(g: Segs)
    ensures |g.s| <= |Join(g)| && Join(g)[..|g.s|] == g.s
    ensures forall i :: 0 <= i < |g.s| ==> Join(g)[i] == g.s[i]
    ensures g.More? ==> |g.s| < |Join(g)| && Join(g)[|g.s|] == Q && Join(g)[|g.s| + 1..] == Join(g.rest)
    ensures !g.More? ==> Join(g) == g.s
  {
  }

  lemma AtStart(t: string, needle: string)
    ensures At(t, 0, needle) <==> |needle| <= |t| && forall i :: 0 <= i < |needle| ==> t[i] == needle[i]
  {
    if |needle| <= |t| && forall i :: 0 <= i < |needle| ==> t[i] == needle[i] {
      assert t[0..|needle|] == needle;
    }
    if At(t, 0, needle) {
      assert forall i :: 0 <= i < |needle| ==> t[0..|needle|][i] == t[i];
    }
  }

  /** A plain text starts with `head` and a quote exactly when its first segment is `head` and closed. */
  lemma StartsQuoted(g: Segs, head: string)
    requires Plain(g) && NoQuote(head)
    ensures At(Join(g), 0, head + [Q]) <==> g.More? && g.s == head
  {
    FirstQuote(g);
    AtStart(Join(g), head + [Q]);
    assert (head + [Q])[|head|] == Q && forall i :: 0 <= i < |head| ==> (head + [Q])[i] == head[i];
    if At(Join(g), 0, head + [Q]) { SameHead(g, head); }
  }

  lemma SameHead(g: Segs, head: string)
    requires Plain(g) && NoQuote(head) && |head| < |Join(g)| && Join(g)[|head|] == Q
    requires forall i :: 0 <= i < |head| ==> Join(g)[i] == head[i]
    ensures g.More? && g.s == head
  {
    FirstQuote(g);
    assert |g.s| == |head|;
  }

  /** A plain text starts with `tail`, which has no quote, exactly when its first segment does. */
  lemma StartsPlain(g: Segs, tail: string)
    requires Plain(g) && NoQuote(tail)
    ensures At(Join(g), 0, tail) <==> tail <= g.s
  {
    FirstQuote(g);
    AtStart(Join(g), tail);
    AtStart(g.s, tail);
  }

  // ---------------------------------------------------------------------------
  // Finding a key
  // ---------------------------------------------------------------------------

  /** Where the quote before the key stands. */
  function Position(g: Segs, key: string): nat {
    match g
    case One(s) => |s|
    case More(s, rest) => if rest.More? && rest.s == key then |s| else |s| + 1 + Position(rest, key)
  }

  /** At the quote that ends the first segment, the quoted key occurs exactly when it is the next segment. */
  lemma KeyHere(g: Segs, key: string)
    requires Plain(g) && NoQuote(key) && g.More?
    ensures At(Join(g), |g.s|, Quoted(key)) <==> g.rest.More? && g.rest.s == key
  {
    FirstQuote(g);
    StartsQuoted(g.rest, key);
    TailAt(Join(g), |g.s|, Quoted(key), Join(g.rest), key + [Q]);
  }

  /** An occurrence of a quote and something more is an occurrence of the rest one further. */
  lemma TailAt(t: string, p: nat, needle: string, rest: string, more: string)
    requires p < |t| && t[p] == Q && t[p + 1..] == rest && needle == [Q] + more
    ensures At(t, p, needle) <==> At(rest, 0, more)
  {
    if p + |needle| <= |t| {
      assert t[p..p + |needle|] == [Q] + t[p + 1..p + |needle|];
      assert t[p + 1..p + |needle|] == rest[0..|more|];
      assert [Q] + rest[0..|more|] == [Q] + more <==> rest[0..|more|] == more by { Cancel(rest[0..|more|], more); }
    }
  }

  lemma Cancel(a: string, b: string)
    ensures [Q] + a == [Q] + b <==> a == b
  {
    assert ([Q] + a)[1..] == a && ([Q] + b)[1..] == b;
  }

  lemma NotHere(t: string, p: nat, needle: string)
    requires p < |t| && !At(t, p, needle)
    ensures Find(t, needle, p) == Find(t, needle, p + 1)
  {
    if p + |needle| > |t| { FindNone(t, needle, p + 1); }
  }

  /** A search that starts at the quote ending the first segment, where the key is not next, goes on
      in the rest. */
  lemma FindInRest(g: Segs, needle: string)
    requires Plain(g) && g.More? && needle != "" && needle[0] == Q && !At(Join(g), |g.s|, needle)
    ensures Find(Join(g), needle, 0)
      == (match Find(Join(g.rest), needle, 0) case None => None case Some(r) => Some(|g.s| + 1 + r))
  {
    hide Find, At;
    var tail := [Q] + Join(g.rest);
    FirstQuote(g);
    FindSkips(g.s, tail, needle, 0);
    NotHere(Join(g), |g.s|, needle);
    assert Join(g) == (g.s + [Q]) + Join(g.rest);
    FindShift(g.s + [Q], Join(g.rest), needle, 0);
  }

  lemma FindNowhere(s: string, needle: string)
    requires NoQuote(s) && needle != "" && needle[0] == Q
    ensures Find(s, needle, 0) == None
  {
    FindSkips(s, "", needle, 0);
    assert s + "" == s;
  }

  lemma FindAtFirst(g: Segs, needle: string)
    requires Plain(g) && g.More? && needle != "" && needle[0] == Q && At(Join(g), |g.s|, needle)
    ensures Find(Join(g), needle, 0) == Some(|g.s|)
  {
    FindSkips(g.s, [Q] + Join(g.rest), needle, 0);
  }

  /** The characters' and the segments' view of a search agree. */
  ghost predicate Agrees(g: Segs, key: string) {
    match After(g, key)
    case None => Find(Join(g), Quoted(key), 0) == None && Join(UpTo(g, key)) == Join(g)
    case Some(after) =>
      var p := Position(g, key);
      && Find(Join(g), Quoted(key), 0) == Some(p) && p + |Quoted(key)| <= |Join(g)|
      && Join(g)[p + |Quoted(key)|..] == Join(after) && Join(g)[..p] == Join(UpTo(g, key))
  }

  lemma FoundHere(g: Segs, key: string)
    requires Plain(g) && NoQuote(key) && g.More? && g.rest.More? && g.rest.s == key
    ensures Agrees(g, key)
  {
    KeyHere(g, key);
    FindAtFirst(g, Quoted(key));
    FirstQuote(g);
    FirstQuote(g.rest);
    assert Join(g)[|g.s| + |Quoted(key)|..] == Join(g)[|g.s| + 1..][|key| + 1..];
  }

  lemma FoundLater(g: Segs, key: string)
    requires Plain(g) && NoQuote(key) && g.More? && !(g.rest.More? && g.rest.s == key) && Agrees(g.rest, key)
    ensures Agrees(g, key)
  {
    KeyHere(g, key);
    FirstQuote(g);
    FindInRest(g, Quoted(key));
    RestParts(g, key);
  }

  lemma RestParts(g: Segs, key: string)
    requires g.More? && !(g.rest.More? && g.rest.s == key)
    ensures After(g, key) == After(g.rest, key) && UpTo(g, key) == More(g.s, UpTo(g.rest, key))
    ensures Position(g, key) == |g.s| + 1 + Position(g.rest, key) && |Join(g)| == |g.s| + 1 + |Join(g.rest)|
    ensures forall p :: 0 <= p <= |Join(g.rest)| ==> Join(g)[|g.s| + 1 + p..] == Join(g.rest)[p..]
    ensures forall p :: 0 <= p <= |Join(g.rest)| ==> Join(g)[..|g.s| + 1 + p] == g.s + ([Q] + Join(g.rest)[..p])
  {
  }

  /** The first occurrence of a quoted key in a plain text is the first segment that equals it, with the
      text before and after it. */
  lemma {:induction false} FindKey(g: Segs, key: string)
    requires Plain(g) && NoQuote(key)
    ensures Agrees(g, key)
  {
    match g
    case One(s) => FindNowhere(s, Quoted(key));
    case More(s, rest) =>
      if rest.More? && rest.s == key {
        FoundHere(g, key);
      } else {
        FindKey(rest, key);
        FoundLater(g, key);
      }
  }

  lemma {:induction false} AfterShrinks(g: Segs, key: string)
    ensures After(g, key).Some? ==> After(g, key).value < g
    decreases g, 1
  {
    if g.More? { AfterQShrinks(g.rest, key); }
  }

  lemma {:induction false} AfterQShrinks(g: Segs, key: string)
    ensures AfterQ(g, key).Some? ==> AfterQ(g, key).value < g
    decreases g, 0
  {
    match g
    case One(_) =>
    case More(s, rest) => if s != key { AfterQShrinks(rest, key); }
  }

  lemma {:induction false} AfterPlain(g: Segs, key: string)
    requires Plain(g)
    ensures AfterQ(g, key).Some? ==> Plain(AfterQ(g, key).value)
    ensures After(g, key).Some? ==> Plain(After(g, key).value)
  {
    match g
    case One(_) =>
    case More(s, rest) => AfterPlain(rest, key);
  }

  /** The pieces of a split, in segments. */
  function SegPieces(g: Segs, key: string): seq<Segs>
    decreases g
  {
    AfterShrinks(g, key);
    match After(g, key)
    case None => []
    case Some(rest) => [UpTo(rest, key)] + SegPieces(rest, key)
  }

  function Texts(gs: seq<Segs>): seq<string> {
    if gs == [] then [] else [Join(gs[0])] + Texts(gs[1..])
  }

  lemma TextsCons(g: Segs, gs: seq<Segs>)
    ensures Texts([g] + gs) == [Join(g)] + Texts(gs)
  {
    assert ([g] + gs)[1..] == gs;
  }

  lemma UpToText(g: Segs, key: string)
    requires Plain(g) && NoQuote(key)
    ensures TextUpTo(Join(g), Quoted(key)) == Join(UpTo(g, key))
  {
    FindKey(g, key);
  }

  lemma AfterText(g: Segs, key: string)
    requires Plain(g) && NoQuote(key)
    ensures TextAfter(Join(g), Quoted(key)) == (match After(g, key) case None => None case Some(r) => Some(Join(r)))
  {
    FindKey(g, key);
  }

  lemma PiecesStep(t: string, needle: string)
    requires needle != ""
    ensures Pieces(t, needle)
         == (match TextAfter(t, needle) case None => [] case Some(r) => [TextUpTo(r, needle)] + Pieces(r, needle))
  {
  }

  /** Splitting a plain text at a quoted key splits its segments at the key. */
  lemma {:induction false} PiecesAgree(g: Segs, key: string)
    requires Plain(g) && NoQuote(key)
    ensures Pieces(Join(g), Quoted(key)) == Texts(SegPieces(g, key))
    decreases g
  {
    AfterText(g, key);
    AfterShrinks(g, key);
    AfterPlain(g, key);
    PiecesStep(Join(g), Quoted(key));
    match After(g, key)
    case None =>
    case Some(r) =>
      PiecesAgree(r, key);
      UpToText(r, key);
      TextsCons(UpTo(r, key), SegPieces(r, key));
  }

  /** `head`, a quote and `tail` start a plain text exactly when `head` is its closed first segment and
      `tail` starts the next. */
  lemma StartsBoth(g: Segs, head: string, tail: string)
    requires Plain(g) && NoQuote(head) && NoQuote(tail)
    ensures At(Join(g), 0, head + [Q] + tail) <==> g.More? && g.s == head && tail <= g.rest.s
  {
    AtJoined(Join(g), head + [Q], tail);
    StartsQuoted(g, head);
    if g.More? && g.s == head {
      FirstQuote(g);
      assert Join(g)[|head + [Q]|..] == Join(g.rest);
      StartsPlain(g.rest, tail);
    }
  }

  lemma AtJoined(t: string, a: string, b: string)
    ensures At(t, 0, a + b) <==> At(t, 0, a) && At(t[|a|..], 0, b)
  {
    AtStart(t, a + b);
    AtStart(t, a);
    if |a| <= |t| {
      AtStart(t[|a|..], b);
      SplitAt(t, a, b);
    }
  }

  lemma SplitAt(t: string, a: string, b: string)
    requires |a| <= |t|
    ensures |a + b| <= |t| ==>
      ((forall i :: 0 <= i < |a + b| ==> t[i] == (a + b)[i])
        <==> (forall i :: 0 <= i < |a| ==> t[i] == a[i]) && forall i :: 0 <= i < |b| ==> t[|a|..][i] == b[i])
  {
    if |a + b| <= |t| {
      assert t[..|a + b|] == t[..|a|] + t[|a|..][..|b|];
      assert (forall i :: 0 <= i < |b| ==> t[|a|..][i] == b[i]) <==> t[|a|..][..|b|] == b;
      assert (forall i :: 0 <= i < |a| ==> t[i] == a[i]) <==> t[..|a|] == a;
      assert (forall i :: 0 <= i < |a + b| ==> t[i] == (a + b)[i]) <==> t[..|a + b|] == a + b;
    }
  }

  lemma FollowedHere(g: Segs, key: string, tail: string)
    requires Plain(g) && NoQuote(key) && NoQuote(tail) && g.More?
    ensures At(Join(g), |g.s|, Quoted(key) + tail) <==> g.rest.More? && g.rest.s == key && tail <= g.rest.rest.s
  {
    FirstQuote(g);
    StartsBoth(g.rest, key, tail);
    assert Quoted(key) + tail == [Q] + (key + [Q] + tail);
    TailAt(Join(g), |g.s|, Quoted(key) + tail, Join(g.rest), key + [Q] + tail);
  }

  /** A plain text contains a quoted key with a plain tail exactly when some segment does. */
  lemma {:induction false} ContainsKey(g: Segs, key: string, tail: string)
    requires Plain(g) && NoQuote(key) && NoQuote(tail)
    ensures Contains(Join(g), Quoted(key) + tail) <==> Followed(g, key, tail)
  {
    var needle := Quoted(key) + tail;
    match g
    case One(s) => FindNowhere(s, needle);
    case More(s, rest) =>
      FollowedHere(g, key, tail);
      if At(Join(g), |s|, needle) {
        FindAtFirst(g, needle);
      } else {
        FindInRest(g, needle);
        ContainsKey(rest, key, tail);
      }
  }

  // ---------------------------------------------------------------------------
  // Values after a colon
  // ---------------------------------------------------------------------------

  lemma FindChar(a: string, c: char, b: string)
    requires forall i :: 0 <= i < |a| ==> a[i] != c
    ensures Find(a + [c] + b, [c], 0) == Some(|a|)
  {
    FindCharFrom(a, c, b, 0);
  }

  lemma {:induction false} FindCharFrom(a: string, c: char, b: string, p: nat)
    requires p <= |a| && forall i :: 0 <= i < |a| ==> a[i] != c
    ensures Find(a + [c] + b, [c], p) == Some(|a|)
    decreases |a| - p
  {
    var t := a + [c] + b;
    assert t[p..p + 1] == [t[p]];
    if p < |a| {
      assert t[p] == a[p];
      FindCharFrom(a, c, b, p + 1);
    }
  }

  lemma AfterColon(more: string)
    ensures QuotedAfterColon(":" + more) == LeadingLiteral(TrimStart(more, 0))
  {
    assert ":" + more == "" + [':'] + more;
    FindChar("", ':', more);
    assert (":" + more)[1..] == more;
  }

  lemma LiteralRead(v: string, rest: string)
    requires NoQuote(v)
    ensures LeadingLiteral(Quoted(v) + rest) == Some(v)
  {
    assert (Quoted(v) + rest)[1..] == v + [Q] + rest;
    FindChar(v, Q, rest);
    assert (v + [Q] + rest)[..|v|] == v;
  }

  /** A quoted value after a colon and perhaps a blank is read back. */
  lemma ReadsValue(v: string, h: Segs, blank: string)
    requires NoQuote(v) && (blank == "" || blank == " ")
    ensures QuotedAfterColon(Join(Prepend(":" + blank, Lit(v, h)))) == Some(v)
  {
    PrependJoins(":" + blank, Lit(v, h));
    LitJoins(v, h);
    var text := Quoted(v) + Join(h);
    assert (":" + blank) + text == ":" + (blank + text);
    AfterColon(blank + text);
    TrimsBlank(blank, text);
    LiteralRead(v, Join(h));
  }

  lemma TrimsBlank(blank: string, rest: string)
    requires (blank == "" || blank == " ") && rest != "" && rest[0] == Q
    ensures TrimStart(blank + rest, 0) == rest
  {
    if blank == " " {
      assert (blank + rest)[0] == ' ' && (blank + rest)[1] == Q;
      assert TrimStart(blank + rest, 0) == TrimStart(blank + rest, 1) == (blank + rest)[1..] == rest;
    } else {
      assert blank + rest == rest;
    }
  }

  /** A bare value after a colon reads as no string. */
  lemma ReadsNothing(b: string, h: Segs)
    requires b != "" && !Space(b[0]) && b[0] != Q
    ensures QuotedAfterColon(Join(Prepend(":" + b, h))) == None
  {
    PrependJoins(":" + b, h);
    assert (":" + b) + Join(h) == ":" + (b + Join(h));
    AfterColon(b + Join(h));
    assert (b + Join(h))[0] == b[0];
  }
}
