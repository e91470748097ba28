/** The media URLs an inbound `message.send` payload carries, deduplicated in order of first appearance. */
module Media {
  import opened Js

  predicate NoDuplicates(s: seq<string>)
  {
    forall i, j | 0 <= i < j < |s| :: s[i] != s[j]
  }

  /** A set built from `s` and read back as an array: each element once, at the place it first appears. */
  function Dedup(s: seq<string>): (r: seq<string>)
    ensures NoDuplicates(r)
    ensures forall x :: x in r <==> x in s
    ensures |r| <= |s|
  {
    if s == [] then []
    else
      var d := Dedup(s[..|s| - 1]);
      if s[|s| - 1] in d then d else d + [s[|s| - 1]]
  }

  /** Deduplicating a prefix gives a prefix of the deduplicated whole: the order of first appearance is kept. */
  lemma {:induction false} DedupPrefix(s: seq<string>, k: nat)
    requires k <= |s|
    ensures Dedup(s[..k]) <= Dedup(s)
    decreases |s| - k
  {
    if k < |s| {
      DedupPrefix(s[..|s| - 1], k);
      assert s[..|s| - 1][..k] == s[..k];
    } else {
      assert s[..k] == s;
    }
  }

  /** A sequence without repeats is left as it is. */
  lemma {:induction false} DedupOfDistinct(s: seq<string>)
    requires NoDuplicates(s)
    ensures Dedup(s) == s
  {
    if s != [] {
      var init := s[..|s| - 1];
      DedupOfDistinct(init);
      assert s[|s| - 1] !in init;
      assert init + [s[|s| - 1]] == s;
    }
  }

  lemma DedupIdempotent(s: seq<string>)
    ensures Dedup(Dedup(s)) == Dedup(s)
  {
    DedupOfDistinct(Dedup(s));
  }

  /** An attachment's URL: the first truthy one of its `getUrl`, `url` and `mediaUrl` fields, or `null`. */
  function AttachmentUrl(item: Value): (r: Value)
    ensures Truthy(Get(item, "getUrl")) ==> r == Get(item, "getUrl")
    ensures !Truthy(Get(item, "getUrl")) && Truthy(Get(item, "url")) ==> r == Get(item, "url")
    ensures !Truthy(Get(item, "getUrl")) && !Truthy(Get(item, "url")) && Truthy(Get(item, "mediaUrl")) ==>
      r == Get(item, "mediaUrl")
    ensures Truthy(r) || r == Null
    ensures Truthy(r) <==> Truthy(Get(item, "getUrl")) || Truthy(Get(item, "url")) || Truthy(Get(item, "mediaUrl"))
  {
    Or(Or(Or(Get(item, "getUrl"), Get(item, "url")), Get(item, "mediaUrl")), Null)
  }

  /** Each attachment mapped to its URL, keeping only the truthy URLs, in the attachments' order. */
  function TruthyUrls(items: seq<Value>): (r: seq<Value>)
    ensures |r| <= |items|
    ensures forall v | v in r :: Truthy(v)
    ensures forall i | 0 <= i < |items| && Truthy(AttachmentUrl(items[i])) :: AttachmentUrl(items[i]) in r
    ensures forall v | v in r :: exists i | 0 <= i < |items| :: v == AttachmentUrl(items[i])
  {
    if items == [] then []
    else
      var rest := TruthyUrls(items[1..]);
      assert forall i | 1 <= i < |items| :: items[i] == items[1..][i - 1];
      UrlOf(items[0]) + rest
  }

  /** What one attachment contributes: its URL when that is truthy, nothing otherwise. */
  function UrlOf(item: Value): (r: seq<Value>)
    ensures r == [] || r == [AttachmentUrl(item)]
    ensures r != [] <==> Truthy(AttachmentUrl(item))
  {
    if Truthy(AttachmentUrl(item)) then [AttachmentUrl(item)] else []
  }

  /** The array at `payload[key]`, or `[]` when that is not an array. */
  function ArrayAt(payload: Value, key: string): seq<Value>
  {
    if Get(payload, key).Arr? then Get(payload, key).items else []
  }

  /** The URL candidates in order: `mediaUrls` first, then the attachments' URLs. */
  function Candidates(payload: Value): (r: seq<Value>)
    ensures var m := ArrayAt(payload, "mediaUrls");
      |m| <= |r| && r[..|m|] == m &&
      forall v | v in r[|m|..] :: Truthy(v) &&
        exists i | 0 <= i < |ArrayAt(payload, "attachments")| :: v == AttachmentUrl(ArrayAt(payload, "attachments")[i])
  {
    ArrayAt(payload, "mediaUrls") + TruthyUrls(ArrayAt(payload, "attachments"))
  }

  /** The values that are strings with a non-white-space character, in their order. */
  function NonBlankStrings(vs: seq<Value>): (r: seq<string>)
    ensures |r| <= |vs|
    ensures forall u :: u in r <==> Str(u) in vs && Trim(u) != ""
  {
    if vs == [] then []
    else
      var rest := NonBlankStrings(vs[1..]);
      StringOf(vs[0]) + rest
  }

  /** What one value contributes: the string itself when it is not blank, nothing otherwise. */
  function StringOf(v: Value): (r: seq<string>)
    ensures r == [] || (v.Str? && r == [v.s])
    ensures r != [] <==> v.Str? && Trim(v.s) != ""
  {
    if v.Str? && Trim(v.s) != "" then [v.s] else []
  }

  /** `collectMediaUrls(payload)` */
  function CollectMediaUrls(payload: Value): (r: seq<string>)
    ensures NoDuplicates(r)
    ensures forall u :: u in r <==> Str(u) in Candidates(payload) && Trim(u) != ""
  {
    Dedup(NonBlankStrings(Candidates(payload)))
  }

  /** The first element and the rest of a sequence built with `[x] + rest`. */
  lemma ConsParts<T>(x: T, rest: seq<T>)
    ensures ([x] + rest)[0] == x && ([x] + rest)[1..] == rest
  {
  }

  /** A non-empty `a` is its head before its tail, also inside `a + b`. */
  lemma SplitHead<T>(a: seq<T>, b: seq<T>)
    requires a != []
    ensures a == [a[0]] + a[1..] && a + b == [a[0]] + (a[1..] + b)
  {
  }

  /** Unfolding `TruthyUrls` once on a sequence built with a first element. */
  lemma TruthyUrlsCons(x: Value, rest: seq<Value>)
    ensures TruthyUrls([x] + rest) == UrlOf(x) + TruthyUrls(rest)
  {
    ConsParts(x, rest);
  }

  /** Mapping and filtering the attachments distributes over concatenation: the order is kept. */
  lemma {:induction false} TruthyUrlsAppend(a: seq<Value>, b: seq<Value>)
    ensures TruthyUrls(a + b) == TruthyUrls(a) + TruthyUrls(b)
  {
    if a != [] {
      var t := a[1..];
      SplitHead(a, b);
      TruthyUrlsCons(a[0], t + b);
      TruthyUrlsCons(a[0], t);
      TruthyUrlsAppend(t, b);
    } else {
      assert a + b == b;
    }
  }

  /** Filtering distributes over concatenation: the kept strings stay in order. */
  lemma {:induction false} NonBlankStringsAppend(a: seq<Value>, b: seq<Value>)
    ensures NonBlankStrings(a + b) == NonBlankStrings(a) + NonBlankStrings(b)
  {
    if a != [] {
      assert (a + b)[0] == a[0] && (a + b)[1..] == a[1..] + b;
      NonBlankStringsAppend(a[1..], b);
      assert NonBlankStrings(a + b) == StringOf(a[0]) + (NonBlankStrings(a[1..]) + NonBlankStrings(b));
    } else {
      assert a + b == b;
    }
  }

  /**
   * The collected URLs are the filtered `mediaUrls` followed by the filtered
   * attachment URLs, deduplicated; the `mediaUrls` ones come first, at their
   * first appearance.
   */
  lemma CollectMediaUrlsOrder(payload: Value)
    ensures var m := NonBlankStrings(ArrayAt(payload, "mediaUrls"));
      && CollectMediaUrls(payload) == Dedup(m + NonBlankStrings(TruthyUrls(ArrayAt(payload, "attachments"))))
      && Dedup(m) <= CollectMediaUrls(payload)
  {
    var m := NonBlankStrings(ArrayAt(payload, "mediaUrls"));
    var t := NonBlankStrings(TruthyUrls(ArrayAt(payload, "attachments")));
    NonBlankStringsAppend(ArrayAt(payload, "mediaUrls"), TruthyUrls(ArrayAt(payload, "attachments")));
    DedupPrefix(m + t, |m|);
    assert (m + t)[..|m|] == m;
  }

  /** Every non-blank string URL of an attachment is collected, whichever of its three fields holds it. */
  lemma AttachmentUrlsCollected(payload: Value, i: nat)
    requires Get(payload, "attachments").Arr? && i < |Get(payload, "attachments").items|
    requires var u := AttachmentUrl(Get(payload, "attachments").items[i]); u.Str? && Trim(u.s) != ""
    ensures AttachmentUrl(Get(payload, "attachments").items[i]).s in CollectMediaUrls(payload)
  {
  }
}
