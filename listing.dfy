/** What draining a paginated `ListObjectsV2` listing yields: the keys collected, the
    listing requests sent (each carrying the previous page's continuation token), and
    the pages left unread. `S3.S3Service.DeleteDirectory` is proved against `Drain`. */
module Listing {
  import opened Results
  import opened Storage

  datatype Drained = Drained(keys: seq<string>, calls: seq<Call>, rest: seq<Page>)

  /** Send listing requests from `token` on until a page is not truncated, reading
      the replies from `pages` (the final empty page once they are used up). Like the
      `do`/`while` loop it models, it sends at least one request, the first one with
      `token`, and it reads at least one scripted page unless the script was empty. */
  function Drain(client: Client, bucket: string, prefix: Option<string>, token: Option<string>,
                 pages: seq<Page>): (d: Drained)
    ensures |d.calls| >= 1
    ensures d.calls[0] == S3Call(client, ListObjectsV2Req(bucket, prefix, token))
    ensures |d.rest| < |pages| || pages == [] == d.rest
    decreases |pages|
  {
    var call := S3Call(client, ListObjectsV2Req(bucket, prefix, token));
    if pages == [] then Drained([], [call], [])
    else if !pages[0].isTruncated then Drained(pages[0].keys, [call], pages[1..])
    else
      var d := Drain(client, bucket, prefix, pages[0].nextContinuationToken, pages[1..]);
      Drained(pages[0].keys + d.keys, [call] + d.calls, d.rest)
  }

  /** Index of the first page that is not truncated, or `|pages|` if all are. */
  function FinalIndex(pages: seq<Page>): (k: nat)
    ensures k <= |pages|
    ensures forall j | 0 <= j < k :: pages[j].isTruncated
    ensures k < |pages| ==> !pages[k].isTruncated
  {
    if pages == [] || !pages[0].isTruncated then 0 else 1 + FinalIndex(pages[1..])
  }

  /** How many scripted pages a drain reads: up to and including the first page that
      is not truncated. */
  function Consumed(pages: seq<Page>): nat {
    if FinalIndex(pages) < |pages| then FinalIndex(pages) + 1 else |pages|
  }

  /** All keys of `pages`, page after page, in order. */
  function ConcatKeys(pages: seq<Page>): seq<string> {
    if pages == [] then [] else pages[0].keys + ConcatKeys(pages[1..])
  }

  /** The collected keys are the in-order concatenation of every page's keys, up to
      and including the first page that is not truncated; the rest stays unread. */
  lemma {:induction false} DrainCollectsPagesInOrder(client: Client, bucket: string, prefix: Option<string>,
                                                   token: Option<string>, pages: seq<Page>)
    ensures Drain(client, bucket, prefix, token, pages).keys == ConcatKeys(pages[..Consumed(pages)])
    ensures Drain(client, bucket, prefix, token, pages).rest == pages[Consumed(pages)..]
    decreases |pages|
  {
    if pages == [] {
    } else if !pages[0].isTruncated {
      assert pages[..1] == [pages[0]];
      assert ConcatKeys([pages[0]]) == pages[0].keys + ConcatKeys([]);
    } else {
      var tail := pages[1..];
      DrainCollectsPagesInOrder(client, bucket, prefix, pages[0].nextContinuationToken, tail);
      assert Consumed(pages) == Consumed(tail) + 1;
      assert pages[..Consumed(pages)] == [pages[0]] + tail[..Consumed(tail)];
      assert (pages[..Consumed(pages)])[1..] == tail[..Consumed(tail)];
      assert pages[Consumed(pages)..] == tail[Consumed(tail)..];
    }
  }

  /** One listing request per page read, plus one for the final empty page when every
      scripted page is truncated; the first carries `token`, every later one the
      continuation token of the page before it. */
  lemma {:induction false} DrainFollowsContinuationTokens(client: Client, bucket: string, prefix: Option<string>,
                                                        token: Option<string>, pages: seq<Page>)
    ensures var d := Drain(client, bucket, prefix, token, pages);
      && |d.calls| == FinalIndex(pages) + 1
      && forall i | 0 <= i < |d.calls| ::
           d.calls[i] == S3Call(client, ListObjectsV2Req(bucket, prefix,
                                  if i == 0 then token else pages[i - 1].nextContinuationToken))
    decreases |pages|
  {
    if pages != [] && pages[0].isTruncated {
      var tail := pages[1..];
      var next := pages[0].nextContinuationToken;
      DrainFollowsContinuationTokens(client, bucket, prefix, next, tail);
      var d := Drain(client, bucket, prefix, token, pages);
      var e := Drain(client, bucket, prefix, next, tail);
      assert d.calls == [S3Call(client, ListObjectsV2Req(bucket, prefix, token))] + e.calls;
      forall i | 1 <= i < |d.calls|
        ensures d.calls[i] == S3Call(client, ListObjectsV2Req(bucket, prefix, pages[i - 1].nextContinuationToken))
      {
        assert d.calls[i] == e.calls[i - 1];
        if i > 1 {
          assert tail[i - 2] == pages[i - 1];
        }
      }
    }
  }

  /** A key is collected exactly when some page read by the drain holds it. */
  lemma {:induction false} ConcatKeysHolds(pages: seq<Page>, key: string)
    ensures key in ConcatKeys(pages) <==> exists j | 0 <= j < |pages| :: key in pages[j].keys
  {
    if pages != [] {
      ConcatKeysHolds(pages[1..], key);
      if key in ConcatKeys(pages[1..]) {
        var j :| 0 <= j < |pages[1..]| && key in pages[1..][j].keys;
        assert key in pages[j + 1].keys;
      }
      if exists j | 0 <= j < |pages| :: key in pages[j].keys {
        var j :| 0 <= j < |pages| && key in pages[j].keys;
        if j > 0 {
          assert key in pages[1..][j - 1].keys;
        }
      }
    }
  }
}
