/**
 * What the shim promises about the stream it consumes: it stops at the first
 * bad item or at the first item that completes a block, it yields nothing
 * for an empty buffer, unfenced text is a parse error, and a fenced reply,
 * however it is split into chunks, comes back as the decoded response.
 */
module ShimProperties {
  import opened Wrappers
  import opened GoStrings
  import opened Shim

  /** The first `n` items all carry text (no upstream error, a first candidate, only text parts). */
  predicate AllTextBefore(items: seq<StreamItem>, n: int)
  {
    0 <= n <= |items| && forall k :: 0 <= k < n ==> ItemText(items[k]).Success?
  }

  /** The text the first `n` items add to the buffer, in order. */
  function TextBefore(items: seq<StreamItem>, n: int): string
    requires AllTextBefore(items, n)
    decreases n
  {
    if n == 0 then "" else ItemText(items[0]).value + TextBefore(items[1..], n - 1)
  }

  /** Every item carries text. */
  predicate AllText(items: seq<StreamItem>)
  {
    AllTextBefore(items, |items|)
  }

  /** Everything a stream of good items says. */
  function Joined(items: seq<StreamItem>): string
    requires AllText(items)
  {
    TextBefore(items, |items|)
  }

  /** The text of `n` items is the text of the first `k` followed by the text of the next `n - k`. */
  lemma {:induction false} TextBeforeSplit(items: seq<StreamItem>, k: int, n: int)
    requires AllTextBefore(items, n) && 0 <= k <= n
    ensures AllTextBefore(items[k..], n - k)
    ensures TextBefore(items, n) == TextBefore(items, k) + TextBefore(items[k..], n - k)
    decreases k
  {
    if k == 0 {
      assert items[0..] == items;
    } else {
      var t := ItemText(items[0]).value;
      TextBeforeSplit(items[1..], k - 1, n - 1);
      assert items[1..][k - 1..] == items[k..];
      var mid, rest := TextBefore(items[1..], k - 1), TextBefore(items[k..], n - k);
      assert TextBefore(items, n) == t + (mid + rest);
      assert TextBefore(items, k) == t + mid;
    }
  }

  /**
   * What the scan does when it drains: it pulls at most every item, all of
   * them carried text, and the buffer is everything they said.
   */
  lemma {:induction false} ScanDrained(items: seq<StreamItem>, b0: string, complete: string -> bool)
    ensures var r := ScanUntil(items, b0, complete);
      && r.consumed <= |items|
      && (items != [] ==> 1 <= r.consumed)
      && (r.Drained? ==> AllTextBefore(items, r.consumed) && r.buffer == b0 + TextBefore(items, r.consumed))
    decreases |items|
  {
    if items != [] && ItemText(items[0]).Success? {
      var t := ItemText(items[0]).value;
      if complete(b0 + t) {
        assert TextBefore(items, 1) == t + TextBefore(items[1..], 0);
      } else {
        ScanDrained(items[1..], b0 + t, complete);
        var r' := ScanUntil(items[1..], b0 + t, complete);
        assert ScanUntil(items, b0, complete) == r'.Later(1);
        if r'.Drained? {
          assert TextBefore(items, r'.consumed + 1) == t + TextBefore(items[1..], r'.consumed);
        }
      }
    }
  }

  /** What the scan does when it aborts: the last item it pulled is the bad one, and every item before it carried text. */
  lemma {:induction false} ScanAborted(items: seq<StreamItem>, b0: string, complete: string -> bool)
    ensures var r := ScanUntil(items, b0, complete);
      r.Aborted? ==> && 1 <= r.consumed <= |items|
                     && ItemText(items[r.consumed - 1]) == Failure(r.error)
                     && AllTextBefore(items, r.consumed - 1)
    decreases |items|
  {
    if items != [] && ItemText(items[0]).Success? {
      var t := ItemText(items[0]).value;
      if !complete(b0 + t) {
        ScanAborted(items[1..], b0 + t, complete);
        var r' := ScanUntil(items[1..], b0 + t, complete);
        assert ScanUntil(items, b0, complete) == r'.Later(1);
      }
    }
  }

  /** The scan stops before the end of the stream only at an error or once the buffer is complete. */
  lemma {:induction false} ScanStopsWhenComplete(items: seq<StreamItem>, b0: string, complete: string -> bool)
    ensures var r := ScanUntil(items, b0, complete);
      r.Drained? && r.consumed < |items| ==> complete(r.buffer)
    decreases |items|
  {
    if items != [] && ItemText(items[0]).Success? {
      var t := ItemText(items[0]).value;
      if !complete(b0 + t) {
        ScanStopsWhenComplete(items[1..], b0 + t, complete);
      }
    }
  }

  /** No good prefix shorter than what the scan consumed made the buffer complete. */
  lemma {:induction false} ScanStopsAtFirst(items: seq<StreamItem>, b0: string, complete: string -> bool)
    ensures var r := ScanUntil(items, b0, complete);
      forall j :: 1 <= j < r.consumed && AllTextBefore(items, j) ==> !complete(b0 + TextBefore(items, j))
    decreases |items|
  {
    if items != [] && ItemText(items[0]).Success? {
      var t := ItemText(items[0]).value;
      if !complete(b0 + t) {
        ScanStopsAtFirst(items[1..], b0 + t, complete);
        var r' := ScanUntil(items[1..], b0 + t, complete);
        assert ScanUntil(items, b0, complete) == r'.Later(1);
        forall j | 1 <= j < r'.consumed + 1 && AllTextBefore(items, j)
          ensures !complete(b0 + TextBefore(items, j))
        {
          if j == 1 {
            assert TextBefore(items, j) == t + "";
            assert b0 + TextBefore(items, j) == b0 + t;
          } else {
            assert b0 + TextBefore(items, j) == (b0 + t) + TextBefore(items[1..], j - 1);
          }
        }
      }
    }
  }

  /** From the shim's own start, an empty buffer: how far the scan reads, and what it holds when it drains. */
  lemma StartDrained(items: seq<StreamItem>, complete: string -> bool)
    ensures var r := ScanUntil(items, "", complete);
      && r.consumed <= |items|
      && (items != [] ==> 1 <= r.consumed)
      && (r.Drained? ==> AllTextBefore(items, r.consumed) && r.buffer == TextBefore(items, r.consumed))
  {
    ScanDrained(items, "", complete);
    var r := ScanUntil(items, "", complete);
    if r.Drained? {
      assert "" + TextBefore(items, r.consumed) == TextBefore(items, r.consumed);
    }
  }

  /** From the shim's own start: where the scan aborts. */
  lemma StartAborted(items: seq<StreamItem>, complete: string -> bool)
    ensures var r := ScanUntil(items, "", complete);
      r.Aborted? ==> && 1 <= r.consumed <= |items|
                     && ItemText(items[r.consumed - 1]) == Failure(r.error)
                     && AllTextBefore(items, r.consumed - 1)
  {
    ScanAborted(items, "", complete);
  }

  /** From the shim's own start: stopping before the end means the buffer holds a complete block. */
  lemma StartStopsWhenComplete(items: seq<StreamItem>, complete: string -> bool)
    ensures var r := ScanUntil(items, "", complete);
      r.Drained? && r.consumed < |items| ==> complete(r.buffer)
  {
    ScanStopsWhenComplete(items, "", complete);
  }

  /** From the shim's own start: no shorter good prefix held a complete block. */
  lemma StartStopsAtFirst(items: seq<StreamItem>, complete: string -> bool)
    ensures var r := ScanUntil(items, "", complete);
      forall j :: 1 <= j < r.consumed && AllTextBefore(items, j) ==> !complete(TextBefore(items, j))
  {
    ScanStopsAtFirst(items, "", complete);
    var r := ScanUntil(items, "", complete);
    forall j | 1 <= j < r.consumed && AllTextBefore(items, j) ensures !complete(TextBefore(items, j)) {
      assert "" + TextBefore(items, j) == TextBefore(items, j);
    }
  }

  lemma OccursInExtension(s: string, u: string, sub: string, i: int)
    ensures OccursAt(s, sub, i) ==> OccursAt(s + u, sub, i)
  {
    if OccursAt(s, sub, i) {
      assert (s + u)[i..i + |sub|] == s[i..i + |sub|];
    }
  }

  /** Appending text never destroys a complete block. */
  lemma BlockCompleteMonotone(s: string, u: string)
    ensures BlockComplete(s) ==> BlockComplete(s + u)
  {
    if BlockComplete(s) {
      IndexSpec(s, JsonBlockMarker);
      IndexSpec(s + u, JsonBlockMarker);
      LastIndexSpec(s, Fence);
      LastIndexSpec(s + u, Fence);
      OccursInExtension(s, u, JsonBlockMarker, Index(s, JsonBlockMarker));
      OccursInExtension(s, u, Fence, LastIndex(s, Fence));
    }
  }


  /**
   * The shim never reads past the item that completes the first block: if it
   * stopped before the end, it stopped on an error or on a complete block,
   * and no shorter good prefix held one.
   */
  lemma ShimStopsAtFirstBlock(items: seq<StreamItem>, decode: string -> Option<ReActResponse>)
    ensures var (out, k) := ShimResult(items, decode);
      && k <= |items|
      && (items != [] ==> 1 <= k)
      && (k < |items| ==> out.Failed? || (AllTextBefore(items, k) && BlockComplete(TextBefore(items, k))))
      && (forall j :: 1 <= j < k && AllTextBefore(items, j) ==> !BlockComplete(TextBefore(items, j)))
  {
    StartDrained(items, BlockComplete);
    StartStopsWhenComplete(items, BlockComplete);
    StartStopsAtFirst(items, BlockComplete);
  }

  /** The scan, from any buffer, aborts at the first bad item when no earlier prefix completed the buffer. */
  lemma {:induction false} ScanFailsAtFirstBad(items: seq<StreamItem>, b0: string, n: int, complete: string -> bool)
    requires 0 <= n < |items| && AllTextBefore(items, n) && ItemText(items[n]).Failure?
    requires forall j :: 1 <= j <= n ==> AllTextBefore(items, j) && !complete(b0 + TextBefore(items, j))
    ensures ScanUntil(items, b0, complete) == Aborted(ItemText(items[n]).error, n + 1)
    decreases n
  {
    if n > 0 {
      assert ItemText(items[0]).Success?;
      var t := ItemText(items[0]).value;
      assert !complete(b0 + t) by {
        assert TextBefore(items, 1) == t + "";
        assert b0 + TextBefore(items, 1) == b0 + t;
      }
      forall j | 1 <= j <= n - 1
        ensures AllTextBefore(items[1..], j) && !complete((b0 + t) + TextBefore(items[1..], j))
      {
        assert AllTextBefore(items, j + 1);
        assert b0 + TextBefore(items, j + 1) == (b0 + t) + TextBefore(items[1..], j);
      }
      assert items[1..][n - 1] == items[n];
      ScanFailsAtFirstBad(items[1..], b0 + t, n - 1, complete);
      assert ScanUntil(items, b0, complete) == ScanUntil(items[1..], b0 + t, complete).Later(1);
    }
  }

  /**
   * An upstream error, a response without candidates or a part that is not
   * text ends the shim with exactly that error, after consuming the bad item
   * and nothing beyond it.
   */
  lemma ShimFailsAtFirstBadItem(items: seq<StreamItem>, n: int, decode: string -> Option<ReActResponse>)
    requires 0 <= n < |items| && AllTextBefore(items, n) && ItemText(items[n]).Failure?
    requires NoCompletePrefix(items, n, BlockComplete)
    ensures ShimResult(items, decode) == (Failed(ItemText(items[n]).error), n + 1)
  {
    StartFailsAtFirstBad(items, n, BlockComplete);
    AbortedResult(items, decode);
  }

  /** The first `n` items carry text, and no non-empty run of them from the start makes the buffer complete. */
  predicate NoCompletePrefix(items: seq<StreamItem>, n: int, complete: string -> bool)
  {
    AllTextBefore(items, n) && forall j :: 1 <= j <= n ==> !complete(TextBefore(items, j))
  }

  /** When the scan aborts, the shim reports the scan's error. */
  lemma AbortedResult(items: seq<StreamItem>, decode: string -> Option<ReActResponse>)
    ensures var r := ScanFrom(items, "");
      r.Aborted? ==> ShimResult(items, decode) == (Failed(r.error), r.consumed)
  {
  }

  /** From the shim's own start: the scan aborts at the first bad item. */
  lemma StartFailsAtFirstBad(items: seq<StreamItem>, n: int, complete: string -> bool)
    requires 0 <= n < |items| && AllTextBefore(items, n) && ItemText(items[n]).Failure?
    requires NoCompletePrefix(items, n, complete)
    ensures ScanUntil(items, "", complete) == Aborted(ItemText(items[n]).error, n + 1)
  {
    forall j | 1 <= j <= n ensures AllTextBefore(items, j) && !complete("" + TextBefore(items, j)) {
      assert "" + TextBefore(items, j) == TextBefore(items, j);
    }
    ScanFailsAtFirstBad(items, "", n, complete);
  }

  lemma BadItemsAbsent(items: seq<StreamItem>, i: int)
    requires AllText(items)
    ensures 0 <= i < |items| ==> ItemText(items[i]).Success?
  {
  }

  /**
   * Over good items the scan drains, its buffer is what the items it read
   * said, and it read everything unless the buffer became complete.
   */
  lemma ScanOverGoodItems(items: seq<StreamItem>, complete: string -> bool)
    requires AllText(items)
    ensures var r := ScanUntil(items, "", complete);
      && r.Drained? && r.consumed <= |items| && (items != [] ==> 1 <= r.consumed)
      && AllTextBefore(items, r.consumed) && r.buffer == TextBefore(items, r.consumed)
      && (r.consumed < |items| ==> complete(r.buffer))
  {
    StartDrained(items, complete);
    StartAborted(items, complete);
    StartStopsWhenComplete(items, complete);
    var r := ScanUntil(items, "", complete);
    BadItemsAbsent(items, r.consumed - 1);
  }

  /** What good items say is what the first `c` of them say followed by what the rest say. */
  lemma GoodItemsSplit(items: seq<StreamItem>, c: int)
    requires AllText(items) && 0 <= c <= |items|
    ensures AllTextBefore(items, c) && AllText(items[c..])
    ensures Joined(items) == TextBefore(items, c) + Joined(items[c..])
    ensures c == |items| ==> TextBefore(items, c) == Joined(items)
  {
    TextBeforeSplit(items, c, |items|);
    if c == |items| {
      assert items[c..] == [];
    }
  }

  /** The empty text holds no block. */
  lemma EmptyIsNotComplete()
    ensures !BlockComplete("")
  {
    var i := Index("", JsonBlockMarker);
    assert i != -1 ==> OccursAt("", JsonBlockMarker, i);
  }

  /** A stream that ends having said nothing yields the benign `(nil, nil)`, not an error. */
  lemma ShimSilentStreamYieldsNothing(items: seq<StreamItem>, decode: string -> Option<ReActResponse>)
    requires AllText(items) && Joined(items) == ""
    ensures ShimResult(items, decode) == (NoResponse, |items|)
  {
    ScanOverGoodItems(items, BlockComplete);
    EmptyIsNotComplete();
    var r := ScanFrom(items, "");
    GoodItemsSplit(items, r.consumed);
    assert |r.buffer| == 0;
  }

  /**
   * Text that ends without a complete block is not a benign end: the shim
   * consumes the whole stream and reports that no JSON block was found.
   */
  lemma ShimUnfencedTextIsAnError(items: seq<StreamItem>, decode: string -> Option<ReActResponse>)
    requires AllText(items) && Joined(items) != "" && !BlockComplete(Joined(items))
    ensures ShimResult(items, decode) == (Failed(ParsingReAct(Joined(items), NoJsonBlock)), |items|)
  {
    ScanOverGoodItems(items, BlockComplete);
    var r := ScanFrom(items, "");
    GoodItemsSplit(items, r.consumed);
    BlockCompleteMonotone(r.buffer, Joined(items[r.consumed..]));
  }

  /** In a fenced reply whose other text has no backticks, fences start only at the marker and at the closing fence. */
  lemma WrappedFenceSites(p: string, body: string, t: string)
    requires '`' !in p && '`' !in body && '`' !in t
    ensures var s, last := p + JsonBlockMarker + body + Fence + t, |p| + |JsonBlockMarker| + |body|;
      forall j :: OccursAt(s, Fence, j) ==> j == |p| || j == last
  {
    var s := p + JsonBlockMarker + body + Fence + t;
    var first, last := |p|, |p| + |JsonBlockMarker| + |body|;
    assert s[first..first + 7] == JsonBlockMarker;
    NoFenceInsideMarker(s, first);
    forall j | j != first && j != last ensures !OccursAt(s, Fence, j) {
      if 0 <= j && j + 3 <= |s| && !(first < j < first + 7) {
        if j < first {
          assert s[j..j + 3][0] == p[j] != Fence[0];
        } else if j < last {
          assert s[j..j + 3][0] == body[j - first - 7] != Fence[0];
        } else if j == last + 1 {
          assert s[j..j + 3][2] == t[0] != Fence[2];
        } else if j == last + 2 {
          assert s[j..j + 3][1] == t[0] != Fence[1];
        } else {
          assert s[j..j + 3][0] == t[j - last - 3] != Fence[0];
        }
      }
    }
  }

  /** A prefix of a fenced reply holds a complete block only once it includes the closing fence. */
  lemma FoundPrefixOfWrapped(p: string, body: string, t: string, n: int)
    requires '`' !in p && '`' !in body && '`' !in t
    ensures var s := p + JsonBlockMarker + body + Fence + t;
      0 <= n <= |s| && ExtractJSON(s[..n]).found ==> |p| + |JsonBlockMarker| + |body| + |Fence| <= n
  {
    var s := p + JsonBlockMarker + body + Fence + t;
    var last := |p| + |JsonBlockMarker| + |body|;
    if 0 <= n <= |s| && ExtractJSON(s[..n]).found {
      var pre := s[..n];
      assert s == pre + s[n..];
      FoundIffFenceAfterMarker(pre);
      IndexSpec(pre, JsonBlockMarker);
      var f := Index(pre, JsonBlockMarker);
      var j :| f < j && OccursAt(pre, Fence, j);
      assert OccursAt(pre, Fence, f) by {
        assert pre[f..f + 3] == pre[f..f + 7][..3];
      }
      OccursInExtension(pre, s[n..], Fence, f);
      OccursInExtension(pre, s[n..], Fence, j);
      WrappedFenceSites(p, body, t);
    }
  }

  /** The whole of a fenced reply, or a prefix of it holding a complete block, extracts exactly the body. */
  lemma WrappedPrefixExtracts(p: string, body: string, t: string, n: int)
    requires '`' !in p && '`' !in body && '`' !in t
    requires var s := p + JsonBlockMarker + body + Fence + t;
      0 <= n <= |s| && (n == |s| || BlockComplete(s[..n]))
    ensures ExtractJSON((p + JsonBlockMarker + body + Fence + t)[..n]) == Extracted(body, true)
  {
    var s := p + JsonBlockMarker + body + Fence + t;
    var last := |p| + |JsonBlockMarker| + |body|;
    assert s[..|s|] == s;
    ExtractWrapped(p, body, t);
    FoundPrefixOfWrapped(p, body, t, n);
    var m := n - (last + |Fence|);
    assert s[..n] == p + JsonBlockMarker + body + Fence + t[..m];
    assert '`' !in t[..m];
    ExtractWrapped(p, body, t[..m]);
  }

  /**
   * The round trip the shim exists for: however a fenced reply is split
   * into chunks, the shim yields exactly what its cleaned body decodes to
   * (or reports it as malformed), having read at least one item and no
   * item past the one that completed the closing fence.
   */
  lemma ShimRoundTrip(items: seq<StreamItem>, p: string, body: string, t: string, decode: string -> Option<ReActResponse>)
    requires '`' !in p && '`' !in body && '`' !in t
    requires AllText(items) && Joined(items) == p + JsonBlockMarker + body + Fence + t
    ensures var (out, k) := ShimResult(items, decode);
      && 1 <= k <= |items|
      && AllTextBefore(items, k)
      && (forall j :: 1 <= j < k ==> !BlockComplete(TextBefore(items, j)))
      && out == (match decode(Clean(body))
                 case Some(resp) => Yielded(resp)
                 case None => Failed(ParsingReAct(TextBefore(items, k), MalformedJson(Clean(body)))))
  {
    ScanOverGoodItems(items, BlockComplete);
    StartStopsAtFirst(items, BlockComplete);
    var r := ScanFrom(items, "");
    GoodItemsSplit(items, r.consumed);
    assert r.buffer == Joined(items)[..|r.buffer|];
    WrappedPrefixExtracts(p, body, t, |r.buffer|);
  }
}
