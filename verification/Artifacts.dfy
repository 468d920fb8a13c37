/**
 Byte windows into stored tool output. Content is UTF-8 as in section 3 of RFC 3629; a window never
 cuts a character, paging with room for the longest character gives the content back, and with less
 room it may stand still.
 */
module Artifacts {

  type Byte = b: int | 0 <= b < 256 witness 0

  const READ_MAX_BYTES: nat := 4096

  predicate Continuation(b: Byte) {
    0x80 <= b < 0xC0
  }

  /** Octets in the character that `b` begins, 0 when it begins none. */
  function CharLength(b: Byte): (n: nat)
    ensures n <= 4
  {
    if b < 0x80 then 1
    else if 0xC2 <= b < 0xE0 then 2
    else if 0xE0 <= b < 0xF0 then 3
    else if 0xF0 <= b < 0xF5 then 4
    else 0
  }

  /**
   Content made of whole characters, each a lead octet and its continuations. The further limits of
   RFC 3629 on second octets are not needed: what follows holds without them.
   */
  predicate Utf8(s: seq<Byte>) {
    s == []
    || (var n := CharLength(s[0]);
        && 0 < n <= |s|
        && (forall i :: 1 <= i < n ==> Continuation(s[i]))
        && Utf8(s[n..]))
  }

  /** A position between characters: the ends, and wherever no continuation octet stands. */
  predicate Boundary(s: seq<Byte>, i: nat) {
    i == 0 || i == |s| || (i < |s| && !Continuation(s[i]))
  }

  // ---- What UTF-8 gives ------------------------------------------------------------------------

  /** The character at a boundary: a lead octet, its continuations, then a boundary again. */
  lemma {:induction false} CharAt(s: seq<Byte>, i: nat)
    requires Utf8(s) && i < |s| && Boundary(s, i)
    ensures var n := CharLength(s[i]);
      && 0 < n <= |s| - i
      && (forall k :: i < k < i + n ==> Continuation(s[k]))
      && Boundary(s, i + n)
    decreases |s|
  {
    var n := CharLength(s[0]);
    if i == 0 {
      if n < |s| {
        LeadFirst(s[n..]);
      }
    } else {
      assert forall k :: 1 <= k < n ==> Continuation(s[k]);
      LeadBoundary(s, n, i);
      CharAt(s[n..], i - n);
      var m := CharLength(s[i]);
      forall k | i < k < i + m ensures Continuation(s[k]) {
        assert s[k] == s[n..][k - n];
      }
      LeadBack(s, n, i + m);
    }
  }

  lemma LeadFirst(s: seq<Byte>)
    requires Utf8(s) && s != []
    ensures !Continuation(s[0])
  {
  }

  lemma LeadBoundary(s: seq<Byte>, n: nat, i: nat)
    requires 0 < n <= i < |s| && Boundary(s, i)
    ensures Boundary(s[n..], i - n) && s[n..][i - n] == s[i]
  {
  }

  lemma LeadBack(s: seq<Byte>, n: nat, i: nat)
    requires 0 < n <= i <= |s| && n < |s| && Utf8(s[n..]) && Boundary(s[n..], i - n)
    ensures Boundary(s, i)
  {
  }

  /** No four octets in a row lack a boundary. */
  lemma {:induction false} BoundaryNear(s: seq<Byte>, i: nat) returns (b: nat)
    requires Utf8(s) && i <= |s|
    ensures b <= i < b + 4 && Boundary(s, b)
    decreases |s|
  {
    b := i;
    if i != 0 && i != |s| {
      var n := CharLength(s[0]);
      if i < n {
        b := 0;
      } else {
        var near := BoundaryNear(s[n..], i - n);
        LeadBack(s, n, n + near);
        b := n + near;
      }
    }
  }

  // ---- The operations --------------------------------------------------------------------------

  function Clamp(maxBytes: nat): (n: nat)
    ensures 1 <= n <= READ_MAX_BYTES
    ensures n == if maxBytes == 0 then 1 else if maxBytes <= 4096 then maxBytes else 4096
  {
    var m := if maxBytes < READ_MAX_BYTES then maxBytes else READ_MAX_BYTES;
    if m < 1 then 1 else m
  }

  /**
   The window of at most `maxBytes` from `offset`, shrunk to whole characters: its end down to the
   nearest boundary, its start up to the nearest one.
   */
  method ArtifactRead(content: seq<Byte>, offset: nat, maxBytes: nat)
    returns (window: seq<Byte>, ghost start: nat, ghost end: nat)
    requires Utf8(content)
    ensures |window| <= Clamp(maxBytes)
    ensures offset >= |content| ==> window == []
    ensures offset < |content| ==>
      && offset <= start <= end <= |content| && end <= offset + Clamp(maxBytes) && window == content[start..end]
      && (forall k :: offset <= k < start ==> !Boundary(content, k))
      && (forall k :: end < k <= offset + Clamp(maxBytes) && k <= |content| ==> !Boundary(content, k))
      && (start < end ==> Boundary(content, start) && Boundary(content, end))
    ensures offset < |content| && Boundary(content, offset) ==>
      start == offset && (window != [] <==> CharLength(content[offset]) <= Clamp(maxBytes))
  {
    start, end := offset, offset;
    var limit := Clamp(maxBytes);
    if offset >= |content| {
      return [], start, end;
    }
    var e := if offset + limit < |content| then offset + limit else |content|;
    ghost var top := e;
    if Boundary(content, offset) {
      CharAt(content, offset);
      forall k | offset < k <= top && k < offset + CharLength(content[offset]) ensures !Boundary(content, k) {
        assert Continuation(content[k]);
      }
    }
    while e > offset && !Boundary(content, e)
      invariant offset <= e <= top
      invariant forall k :: e < k <= top ==> !Boundary(content, k)
    {
      e := e - 1;
    }
    var b := offset;
    while b < e && !Boundary(content, b)
      invariant offset <= b <= e
      invariant forall k :: offset <= k < b ==> !Boundary(content, k)
    {
      b := b + 1;
    }
    window := content[b..e];
    start, end := b, e;
  }

  /** Whole characters from the end: between `max` - 3 and `max` octets when there is more than that. */
  method ArtifactTail(content: seq<Byte>, maxBytes: nat) returns (tail: seq<Byte>, ghost start: nat)
    requires Utf8(content)
    ensures start <= |content| && tail == content[start..] && Boundary(content, start)
    ensures |content| <= Clamp(maxBytes) ==> tail == content
    ensures |content| > Clamp(maxBytes) ==> Clamp(maxBytes) - 3 <= |tail| <= Clamp(maxBytes)
    ensures |content| > Clamp(maxBytes) ==>
      forall k :: |content| - Clamp(maxBytes) <= k < start ==> !Boundary(content, k)
  {
    var limit := Clamp(maxBytes);
    start := 0;
    if |content| <= limit {
      assert content[0..] == content;
      return content, start;
    }
    var b := |content| - limit;
    ghost var low := b;
    if low + 3 <= |content| {
      var near := BoundaryNear(content, low + 3);
      assert low <= near <= low + 3 && Boundary(content, near);
    }
    while b < |content| && !Boundary(content, b)
      invariant low <= b <= |content|
      invariant forall k :: low <= k < b ==> !Boundary(content, k)
    {
      b := b + 1;
    }
    tail := content[b..];
    start := b;
  }

  /**
   Paging from the start, each page continuing where the last one ended: with room for the longest
   character it always moves on, and the pages make up the content.
   */
  method ReadAll(content: seq<Byte>, maxBytes: nat) returns (whole: seq<Byte>)
    requires Utf8(content) && maxBytes >= 4
    ensures whole == content
  {
    whole := [];
    while |whole| < |content|
      invariant |whole| <= |content| && whole == content[..|whole|] && Boundary(content, |whole|)
      decreases |content| - |whole|
    {
      var page, start, end := ArtifactRead(content, |whole|, maxBytes);
      CharAt(content, |whole|);
      assert content[..end] == content[..start] + content[start..end];
      whole := whole + page;
    }
  }

  /** With room for fewer than four octets some content is never read: the page at its start is empty. */
  lemma NarrowPageStandsStill(maxBytes: nat) returns (content: seq<Byte>)
    requires maxBytes < 4
    ensures Utf8(content) && content != [] && Boundary(content, 0) && CharLength(content[0]) > Clamp(maxBytes)
  {
    content := [0xF0, 0x9F, 0x98, 0x80];
    assert content[4..] == [];
  }
}
