/** `downloadFile`: a write stream is opened on the destination, the URL is
    requested, and the response status decides what happens next. The
    network's answers are supplied as a list, one per request, in order. */
module Fetcher {
  import opened Results
  import opened HostFs
  import Text

  /** What one call of `https.get` came to: a response, an error event on the
      request, or a synchronous throw before any request was sent (Node rejects
      a relative or non-`https:` URL that way, such as a redirect's `Location`). */
  datatype Reply =
    | Response(status: nat, location: string, body: seq<byte>)
    | TransportFailure(message: string)
    | Rejected(message: string)

  /** 301 Moved Permanently and 302 Found (sections 15.4.2 and 15.4.3 of RFC 9110) are followed. */
  predicate Redirects(r: Reply) {
    r.Response? && (r.status == 302 || r.status == 301)
  }

  /** The answers end the redirect chain: some reply is not a redirect. */
  predicate Settles(replies: seq<Reply>) {
    exists i :: 0 <= i < |replies| && !Redirects(replies[i])
  }

  lemma SettlesAfterRedirect(replies: seq<Reply>)
    requires Settles(replies) && Redirects(replies[0])
    ensures Settles(replies[1..])
  {
    var i :| 0 <= i < |replies| && !Redirects(replies[i]);
    assert replies[1..][i - 1] == replies[i];
  }

  /** Index of the reply that ends the chain. */
  function FinalHop(replies: seq<Reply>): (k: nat)
    requires Settles(replies)
    ensures k < |replies| && !Redirects(replies[k])
    ensures forall i :: 0 <= i < k ==> Redirects(replies[i])
    decreases |replies|
  {
    if !Redirects(replies[0]) then 0
    else
      SettlesAfterRedirect(replies);
      1 + FinalHop(replies[1..])
  }

  /** The reply that ends the redirect chain. */
  function FinalReply(replies: seq<Reply>): (r: Reply)
    requires Settles(replies)
    ensures !Redirects(r) && r in replies
  {
    replies[FinalHop(replies)]
  }

  datatype FetchError = DownloadFailed(code: nat) | TransportError(message: string) | InvalidUrl(message: string)
  {
    /** The message of the rejected promise's `Error`: for a failed status, the
        prefix and the status in canonical decimal digits. */
    function Message(): (m: string)
      ensures DownloadFailed? ==>
                && |m| > 17 && m[..17] == "Download failed: "
                && (forall k :: 17 <= k < |m| ==> Text.IsDigit(m[k]))
                && (|m| > 18 ==> m[17] != '0')
                && Text.ParseDecimal(m[17..]) == code
      ensures TransportError? || InvalidUrl? ==> m == message
    {
      match this
      case DownloadFailed(code) =>
        var digits := Text.Decimal(code);
        Text.DecimalRoundTrip(code);
        assert ("Download failed: " + digits)[17..] == digits;
        "Download failed: " + digits
      case TransportError(message) => message
      case InvalidUrl(message) => message
    }
  }

  /** Two failed statuses are never reported with the same message. */
  lemma DownloadFailedMessagesDistinct(c1: nat, c2: nat)
    requires c1 != c2
    ensures DownloadFailed(c1).Message() != DownloadFailed(c2).Message()
  {
  }

  /** Entries and modes at every path other than `p` are the same. */
  predicate SameExcept(d1: Disk, d2: Disk, p: Path) {
    d1.nodes - {p} == d2.nodes - {p} && d1.modes - {p} == d2.modes - {p}
  }

  lemma SameExceptAt(d1: Disk, d2: Disk, p: Path, q: Path)
    requires SameExcept(d1, d2, p) && q != p
    ensures q in d1.nodes <==> q in d2.nodes
    ensures q in d1.nodes ==> d1.nodes[q] == d2.nodes[q]
    ensures q in d1.modes <==> q in d2.modes
    ensures q in d1.modes ==> d1.modes[q] == d2.modes[q]
  {
    assert q in d1.nodes <==> q in d1.nodes - {p};
    assert q in d2.nodes <==> q in d2.nodes - {p};
    assert q in d1.modes <==> q in d1.modes - {p};
    assert q in d2.modes <==> q in d2.modes - {p};
    if q in d1.nodes && q in d2.nodes {
      assert (d1.nodes - {p})[q] == d1.nodes[q];
      assert (d2.nodes - {p})[q] == d2.nodes[q];
    }
    if q in d1.modes && q in d2.modes {
      assert (d1.modes - {p})[q] == d1.modes[q];
      assert (d2.modes - {p})[q] == d2.modes[q];
    }
  }

  /** Specification of `downloadFile(url, dest)` against the answers `replies`. */
  function Download(d: Disk, url: string, dest: Path, replies: seq<Reply>): (run: Run<Result<(), FetchError>>)
    requires Settles(replies)
    ensures SameExcept(run.disk, d, dest)
    decreases |replies|
  {
    var created := d.Truncate(dest);
    var sent := [OpenForWrite(dest), Get(url)];
    match replies[0]
    case Rejected(message) =>
      Run(Err(InvalidUrl(message)), created, [OpenForWrite(dest)])
    case TransportFailure(message) =>
      Run(Err(TransportError(message)), created.Remove(dest), sent + [Remove(dest)])
    case Response(status, location, body) =>
      if status == 302 || status == 301 then
        SettlesAfterRedirect(replies);
        var rest := Download(created, location, dest, replies[1..]);
        Run(rest.result, rest.disk, sent + rest.effects)
      else if status != 200 then
        Run(Err(DownloadFailed(status)), created, sent)
      else
        Run(Ok(()), created.Write(dest, body), sent + [WriteBody(dest, body)])
  }

  /** The reply that ends the chain decides the result and what is left at `dest`:
      a 200 body, an empty file after another status or a rejected URL, nothing
      after a transport error. */
  lemma {:induction false} DownloadOutcome(d: Disk, url: string, dest: Path, replies: seq<Reply>)
    requires Settles(replies)
    ensures Download(d, url, dest, replies).result.Ok? <==>
              FinalReply(replies).Response? && FinalReply(replies).status == 200
    ensures Download(d, url, dest, replies).result.Ok? ==>
              dest in Download(d, url, dest, replies).disk.nodes
              && Download(d, url, dest, replies).disk.nodes[dest] == File(FinalReply(replies).body)
    ensures FinalReply(replies).Response? && FinalReply(replies).status != 200 ==>
              Download(d, url, dest, replies).result == Err(DownloadFailed(FinalReply(replies).status))
              && dest in Download(d, url, dest, replies).disk.nodes
              && Download(d, url, dest, replies).disk.nodes[dest] == File([])
    ensures FinalReply(replies).TransportFailure? ==>
              Download(d, url, dest, replies).result == Err(TransportError(FinalReply(replies).message))
              && dest !in Download(d, url, dest, replies).disk.nodes
    ensures FinalReply(replies).Rejected? ==>
              Download(d, url, dest, replies).result == Err(InvalidUrl(FinalReply(replies).message))
              && dest in Download(d, url, dest, replies).disk.nodes
              && Download(d, url, dest, replies).disk.nodes[dest] == File([])
    ensures Remove(dest) in Download(d, url, dest, replies).effects <==> FinalReply(replies).TransportFailure?
    decreases |replies|
  {
    if Redirects(replies[0]) {
      SettlesAfterRedirect(replies);
      DownloadOutcome(d.Truncate(dest), replies[0].location, dest, replies[1..]);
      assert FinalReply(replies) == FinalReply(replies[1..]);
    }
  }

  /** A download only requests URLs and opens, writes or removes `dest`; it opens
      `dest` first, and requests `url` next unless `https.get` rejected it. */
  lemma {:induction false} DownloadTouchesOnlyDest(d: Disk, url: string, dest: Path, replies: seq<Reply>)
    requires Settles(replies)
    ensures replies[0].Rejected? ==> Download(d, url, dest, replies).effects == [OpenForWrite(dest)]
    ensures !replies[0].Rejected? ==>
              && |Download(d, url, dest, replies).effects| >= 2
              && Download(d, url, dest, replies).effects[..2] == [OpenForWrite(dest), Get(url)]
    ensures forall e :: e in Download(d, url, dest, replies).effects ==>
              e.Get? || e == OpenForWrite(dest) || e == Remove(dest) || (e.WriteBody? && e.path == dest)
    decreases |replies|
  {
    if Redirects(replies[0]) {
      SettlesAfterRedirect(replies);
      DownloadTouchesOnlyDest(d.Truncate(dest), replies[0].location, dest, replies[1..]);
    }
  }

  /** The URLs requested, in order. */
  function Requests(effects: seq<Effect>): seq<string> {
    if effects == [] then []
    else (if effects[0].Get? then [effects[0].url] else []) + Requests(effects[1..])
  }

  lemma {:induction false} RequestsAppend(a: seq<Effect>, b: seq<Effect>)
    ensures Requests(a + b) == Requests(a) + Requests(b)
  {
    if a != [] {
      assert (a + b)[1..] == a[1..] + b;
      RequestsAppend(a[1..], b);
    } else {
      assert a + b == b;
    }
  }

  /** The first request goes to `url`, each later one to the `Location` of the
      redirect before it, and nothing is requested after the chain ends, nor for
      a URL that `https.get` rejected. */
  lemma {:induction false} DownloadFollowsLocations(d: Disk, url: string, dest: Path, replies: seq<Reply>)
    requires Settles(replies)
    ensures |Requests(Download(d, url, dest, replies).effects)|
            == if FinalReply(replies).Rejected? then FinalHop(replies) else FinalHop(replies) + 1
    ensures |Requests(Download(d, url, dest, replies).effects)| > 0 ==>
              Requests(Download(d, url, dest, replies).effects)[0] == url
    ensures forall i :: 0 < i < |Requests(Download(d, url, dest, replies).effects)| ==>
              Requests(Download(d, url, dest, replies).effects)[i] == replies[i - 1].location
    decreases |replies|
  {
    var run := Download(d, url, dest, replies);
    var sent := [OpenForWrite(dest), Get(url)];
    assert Requests([OpenForWrite(dest)]) == [] by { assert [OpenForWrite(dest)][1..] == []; }
    assert Requests(sent) == [url] by {
      assert sent[1..] == [Get(url)];
      assert [Get(url)][1..] == [];
      assert Requests([Get(url)]) == [url] + Requests([]);
      assert Requests(sent) == [] + Requests(sent[1..]);
    }
    if Redirects(replies[0]) {
      SettlesAfterRedirect(replies);
      var rest := Download(d.Truncate(dest), replies[0].location, dest, replies[1..]);
      DownloadFollowsLocations(d.Truncate(dest), replies[0].location, dest, replies[1..]);
      RequestsAppend(sent, rest.effects);
      assert FinalReply(replies) == FinalReply(replies[1..]);
      forall i | 0 < i < |Requests(run.effects)|
        ensures Requests(run.effects)[i] == replies[i - 1].location
      {
        if i > 1 {
          assert replies[1..][i - 2] == replies[i - 1];
        }
      }
    } else if replies[0].TransportFailure? {
      assert Requests([Remove(dest)]) == [] by { assert [Remove(dest)][1..] == []; }
      RequestsAppend(sent, [Remove(dest)]);
    } else if replies[0].Response? && replies[0].status == 200 {
      var written := [WriteBody(dest, replies[0].body)];
      assert Requests(written) == [] by { assert written[1..] == []; }
      RequestsAppend(sent, written);
    }
  }

  /** `downloadFile`, following redirects by recursion as the source does. */
  method DownloadFile(host: Host, url: string, dest: Path, replies: seq<Reply>)
    returns (result: Result<(), FetchError>)
    requires Settles(replies)
    modifies host
    ensures result == Download(old(host.State()), url, dest, replies).result
    ensures host.State() == Download(old(host.State()), url, dest, replies).disk
    ensures host.trace == old(host.trace) + Download(old(host.State()), url, dest, replies).effects
    decreases |replies|
  {
    ghost var before := host.trace;
    host.CreateWriteStream(dest);
    if replies[0].Rejected? {
      return Err(InvalidUrl(replies[0].message));
    }
    host.HttpsGet(url);
    ghost var sent := [OpenForWrite(dest), Get(url)];
    assert host.trace == before + sent;
    match replies[0] {
      case TransportFailure(message) =>
        assert host.State().Unlinkable(dest);
        host.UnlinkQuietly(dest);
        result := Err(TransportError(message));
      case Response(status, location, body) =>
        if status == 302 || status == 301 {
          SettlesAfterRedirect(replies);
          ghost var rest := Download(host.State(), location, dest, replies[1..]);
          result := DownloadFile(host, location, dest, replies[1..]);
          AppendAssociates(before, sent, rest.effects);
        } else if status != 200 {
          result := Err(DownloadFailed(status));
        } else {
          host.PipeBody(dest, body);
          result := Ok(());
        }
    }
  }
}
