/**
 Pairing event payloads with the images that follow them: once over a buffered list of parts,
 once as parts arrive on a stream.
 */
module EventPairing {
  import opened Options

  type Byte = bv8
  type Bytes = seq<Byte>

  /** A part as both readers see it: the lower-cased header block, and the declared content type. */
  datatype Part = Part(headers: string, contentType: string, body: Bytes)

  datatype EventPair = EventPair(alert: Bytes, jpeg: Option<Bytes>)

  // -------------------------------------------------------------- classification

  predicate Contains(text: string, word: string) {
    exists i :: 0 <= i <= |text| && OccursAt(text, word, i)
  }

  predicate OccursAt(text: string, word: string, i: nat)
    requires i <= |text|
  {
    word <= text[i..]
  }

  const JPEG_MAGIC: Bytes := [0xFF, 0xD8, 0xFF]
  const BRACE: Byte := 123
  const ANGLE: Byte := 60

  /** `<EventNotificationAlert` */
  const ALERT_TAG: Bytes :=
    [60, 69, 118, 101, 110, 116, 78, 111, 116, 105, 102, 105, 99, 97, 116, 105, 111, 110, 65, 108, 101, 114, 116]

  predicate AsciiWhitespace(b: Byte) { b == 32 || b == 9 || b == 10 || b == 12 || b == 13 }

  function FirstVisible(body: Bytes): Option<Byte> {
    if body == [] then None else if AsciiWhitespace(body[0]) then FirstVisible(body[1..]) else Some(body[0])
  }

  predicate IsJpeg(p: Part) { Contains(p.headers, "image/jpeg") || JPEG_MAGIC <= p.body }

  predicate IsAlert(p: Part) {
    !IsJpeg(p) && (FirstVisible(p.body) == Some(BRACE) || FirstVisible(p.body) == Some(ANGLE))
  }

  datatype Kind = Alert | Jpeg | Neither

  function BufferedKind(p: Part): Kind { if IsJpeg(p) then Jpeg else if IsAlert(p) then Alert else Neither }

  predicate StreamedAlert(p: Part) {
    || "application/xml" <= p.contentType || "application/json" <= p.contentType
    || ALERT_TAG <= p.body || (p.body != [] && p.body[0] == BRACE)
  }

  predicate StreamedJpeg(p: Part) { "image/jpeg" <= p.contentType || JPEG_MAGIC <= p.body }

  function StreamedKind(p: Part): Kind { if StreamedAlert(p) then Alert else if StreamedJpeg(p) then Jpeg else Neither }

  predicate LabelledPayload(p: Part) { "application/xml" <= p.contentType || "application/json" <= p.contentType }

  /** Opens at once, without white space, as a payload does. */
  predicate OpensAsPayload(p: Part) { ALERT_TAG <= p.body || (p.body != [] && p.body[0] == BRACE) }

  /** Label and first bytes go together: an image by its bytes is not declared a payload; one by
      its header alone is declared an image and does not open as a payload; what shows a bracket
      first is declared a payload or opens as one; and anything else is declared neither. */
  predicate LabelFits(p: Part) {
    if JPEG_MAGIC <= p.body then !LabelledPayload(p)
    else if Contains(p.headers, "image/jpeg") then
      !LabelledPayload(p) && !OpensAsPayload(p) && "image/jpeg" <= p.contentType
    else if FirstVisible(p.body) in {Some(BRACE), Some(ANGLE)} then LabelledPayload(p) || OpensAsPayload(p)
    else !LabelledPayload(p) && !("image/jpeg" <= p.contentType)
  }

  /** The two readers classify a part alike if and only if its label fits its first bytes. */
  lemma ReadersAgreeExactly(p: Part)
    ensures BufferedKind(p) == StreamedKind(p) <==> LabelFits(p)
  {
    if ALERT_TAG <= p.body { assert p.body[0] == ALERT_TAG[0] == ANGLE; }
    if JPEG_MAGIC <= p.body { assert p.body[0] == JPEG_MAGIC[0] == 0xFF; }
    if p.body != [] && !AsciiWhitespace(p.body[0]) { assert FirstVisible(p.body) == Some(p.body[0]); }
  }

  /** They differ where a label and the bytes contradict each other, and on payloads that open with white space. */
  lemma ReadersDisagree()
    ensures var mislabelled := Part("content-type: image/jpeg", "image/jpeg", [BRACE]);
      BufferedKind(mislabelled) == Jpeg && StreamedKind(mislabelled) == Alert
    ensures var indented := Part("", "", [32, BRACE]);
      BufferedKind(indented) == Alert && StreamedKind(indented) == Neither
  {
    var h := "content-type: image/jpeg";
    assert OccursAt(h, "image/jpeg", 14);
    var indented := Part("", "", [32, BRACE]);
    assert FirstVisible([BRACE]) == Some(BRACE);
    assert [32, BRACE][1..] == [BRACE];
    assert FirstVisible(indented.body) == Some(BRACE);
    assert !Contains("", "image/jpeg");
    assert indented.body[0] == 32 && JPEG_MAGIC[0] == 0xFF && ALERT_TAG[0] == 60;
  }

  // ------------------------------------------------------ the classes by the bytes

  predicate VisibleFirst(body: Bytes, i: nat)
    requires i < |body|
  {
    forall k :: 0 <= k < i ==> body[k] in {9, 10, 12, 13, 32}
  }

  lemma {:induction false} FirstVisibleMeans(body: Bytes, b: Byte)
    requires b !in {9, 10, 12, 13, 32}
    ensures FirstVisible(body) == Some(b) <==> exists i :: 0 <= i < |body| && body[i] == b && VisibleFirst(body, i)
  {
    if body != [] {
      FirstVisibleMeans(body[1..], b);
      if AsciiWhitespace(body[0]) {
        if i :| 0 <= i < |body| && body[i] == b && VisibleFirst(body, i) {
          assert body[1..][i - 1] == b && VisibleFirst(body[1..], i - 1);
        }
        if i :| 0 <= i < |body[1..]| && body[1..][i] == b && VisibleFirst(body[1..], i) {
          assert body[i + 1] == b;
          forall k | 0 <= k < i + 1 ensures body[k] in {9, 10, 12, 13, 32} { if k > 0 { assert body[k] == body[1..][k - 1]; } }
          assert VisibleFirst(body, i + 1);
        }
      } else if body[0] == b {
        assert VisibleFirst(body, 0);
      }
    }
  }

  predicate WordAt(text: string, word: string, i: nat) { i + |word| <= |text| && text[i..i + |word|] == word }

  lemma ContainsMeans(text: string, word: string)
    ensures Contains(text, word) <==> exists i: nat :: WordAt(text, word, i)
  {
    if Contains(text, word) {
      var i :| 0 <= i <= |text| && OccursAt(text, word, i);
      assert word == text[i..][..|word|] == text[i..i + |word|];
      assert WordAt(text, word, i);
    }
    if i: nat :| WordAt(text, word, i) {
      assert word == text[i..i + |word|] == text[i..][..|word|];
      assert OccursAt(text, word, i);
    }
  }

  /** The buffered reader: an image is labelled so anywhere in its headers or opens with FF D8 FF; a
      payload is no image and shows a brace (123) or an angle bracket (60) behind any white space. */
  lemma BufferedKindMeans(p: Part)
    ensures BufferedKind(p) == Jpeg <==>
      || (exists i: nat :: WordAt(p.headers, "image/jpeg", i))
      || (|p.body| >= 3 && p.body[0] == 255 && p.body[1] == 216 && p.body[2] == 255)
    ensures BufferedKind(p) == Alert <==>
      BufferedKind(p) != Jpeg && exists i :: 0 <= i < |p.body| && p.body[i] in {60, 123} && VisibleFirst(p.body, i)
  {
    ContainsMeans(p.headers, "image/jpeg");
    FirstVisibleMeans(p.body, 123);
    FirstVisibleMeans(p.body, 60);
    PrefixOfThree(p.body, 255, 216, 255);
    hide Contains;
    hide WordAt;
    hide FirstVisible;
    hide VisibleFirst;
  }

  lemma PrefixOfThree(body: Bytes, a: Byte, b: Byte, c: Byte)
    ensures [a, b, c] <= body <==> |body| >= 3 && body[0] == a && body[1] == b && body[2] == c
  {
  }

  /** The streaming reader: a payload by its declared type or its very first bytes, which spell
      `<EventNotificationAlert` or a brace, before an image by either. */
  lemma StreamedKindMeans(p: Part)
    ensures StreamedKind(p) == Alert <==>
      || WordAt(p.contentType, "application/xml", 0) || WordAt(p.contentType, "application/json", 0)
      || [60, 69, 118, 101, 110, 116, 78, 111, 116, 105, 102, 105, 99, 97, 116, 105, 111, 110, 65, 108, 101, 114, 116] <= p.body
      || (p.body != [] && p.body[0] == 123)
    ensures StreamedKind(p) == Jpeg <==>
      StreamedKind(p) != Alert
      && (WordAt(p.contentType, "image/jpeg", 0)
          || (|p.body| >= 3 && p.body[0] == 255 && p.body[1] == 216 && p.body[2] == 255))
  {
    StartsMeans(p.contentType, "application/xml");
    StartsMeans(p.contentType, "application/json");
    StartsMeans(p.contentType, "image/jpeg");
    PrefixOfThree(p.body, 255, 216, 255);
    hide WordAt;
  }

  lemma StartsMeans(text: string, word: string)
    ensures word <= text <==> WordAt(text, word, 0)
  {
    if word <= text { assert text[0..|word|] == text[..|word|] == word; }
    if WordAt(text, word, 0) { assert text[..|word|] == text[0..|word|]; }
  }

  // -------------------------------------------------------------- specification

  type Tagged = (Kind, Bytes)

  function Tag(kind: Part -> Kind, parts: seq<Part>): (r: seq<Tagged>)
    ensures |r| == |parts| && forall i :: 0 <= i < |r| ==> r[i] == (kind(parts[i]), parts[i].body)
  {
    seq(|parts|, i requires 0 <= i < |parts| => (kind(parts[i]), parts[i].body))
  }

  /** The first image before the next payload. */
  function ImageBeforeNextAlert(parts: seq<Tagged>): Option<Bytes> {
    if parts == [] || parts[0].0.Alert? then None
    else if parts[0].0.Jpeg? then Some(parts[0].1)
    else ImageBeforeNextAlert(parts[1..])
  }

  /** One pair for every payload, in order, each with the first image before the next one. */
  function Pairs(parts: seq<Tagged>): seq<EventPair> {
    if parts == [] then []
    else if parts[0].0.Alert? then [EventPair(parts[0].1, ImageBeforeNextAlert(parts[1..]))] + Pairs(parts[1..])
    else Pairs(parts[1..])
  }

  function Alerts(parts: seq<Tagged>): seq<Bytes> {
    if parts == [] then [] else (if parts[0].0.Alert? then [parts[0].1] else []) + Alerts(parts[1..])
  }

  /** No payload is lost, repeated or moved. */
  lemma {:induction false} EveryAlertOnce(parts: seq<Tagged>)
    ensures |Pairs(parts)| == |Alerts(parts)|
    ensures forall i :: 0 <= i < |Pairs(parts)| ==> Pairs(parts)[i].alert == Alerts(parts)[i]
  {
    if parts != [] {
      EveryAlertOnce(parts[1..]);
      var rest := Pairs(parts[1..]);
      if parts[0].0.Alert? {
        var first := EventPair(parts[0].1, ImageBeforeNextAlert(parts[1..]));
        assert Pairs(parts) == [first] + rest;
        forall i | 0 <= i < |Pairs(parts)| ensures Pairs(parts)[i].alert == Alerts(parts)[i] {
          if i > 0 { assert Pairs(parts)[i] == rest[i - 1] && Alerts(parts)[i] == Alerts(parts[1..])[i - 1]; }
        }
      } else {
        assert Alerts(parts) == [] + Alerts(parts[1..]) == Alerts(parts[1..]);
      }
    }
  }

  /** Image `k` is the first part behind `j` that is an image or a payload. */
  predicate FirstImage(parts: seq<Tagged>, j: nat, k: nat)
    requires k < |parts|
  {
    j < k && parts[k].0.Jpeg? && forall m :: j < m < k ==> parts[m].0.Neither?
  }

  lemma {:induction false} ImageMeans(parts: seq<Tagged>, j: nat)
    requires j < |parts|
    ensures var image := ImageBeforeNextAlert(parts[j + 1..]);
      && (image.Some? <==> exists k :: 0 <= k < |parts| && FirstImage(parts, j, k))
      && forall k :: 0 <= k < |parts| && FirstImage(parts, j, k) ==> image == Some(parts[k].1)
    decreases |parts| - j
  {
    if j + 1 < |parts| {
      assert parts[j + 1..][1..] == parts[j + 2..] && parts[j + 1..][0] == parts[j + 1];
      if parts[j + 1].0.Neither? {
        var i: nat := j + 1;
        ImageMeans(parts, i);
        if k :| 0 <= k < |parts| && FirstImage(parts, i, k) { assert FirstImage(parts, j, k); }
        forall k | 0 <= k < |parts| && FirstImage(parts, j, k) ensures FirstImage(parts, i, k) {}
      } else if parts[j + 1].0.Jpeg? {
        assert FirstImage(parts, j, j + 1);
      }
    }
  }

  /** At every position: a payload makes one pair, between those of what stands before it and behind
      it, with the first image between it and the next payload if there is one. */
  lemma {:induction false} PairedInPlace(parts: seq<Tagged>, j: nat)
    requires j < |parts| && parts[j].0.Alert?
    ensures exists image ::
      && Pairs(parts) == Pairs(parts[..j]) + [EventPair(parts[j].1, image)] + Pairs(parts[j + 1..])
      && (image.Some? <==> exists k :: 0 <= k < |parts| && FirstImage(parts, j, k))
      && forall k :: 0 <= k < |parts| && FirstImage(parts, j, k) ==> image == Some(parts[k].1)
  {
    ImageMeans(parts, j);
    PairsSplit(parts, j);
    hide Pairs;
    hide ImageBeforeNextAlert;
    hide FirstImage;
  }

  lemma {:induction false} PairsSplit(parts: seq<Tagged>, j: nat)
    requires j < |parts| && parts[j].0.Alert?
    ensures Pairs(parts) == Pairs(parts[..j]) + [EventPair(parts[j].1, ImageBeforeNextAlert(parts[j + 1..]))] + Pairs(parts[j + 1..])
    decreases j
  {
    if j > 0 {
      var rest := parts[1..];
      PairsSplit(rest, j - 1);
      assert parts[..j][1..] == rest[..j - 1] && rest[j..] == parts[j + 1..] && rest[j - 1] == parts[j];
      ImageBefore(parts, 1, j);
    }
  }

  /** What stands behind the next payload does not matter. */
  lemma {:induction false} ImageBefore(parts: seq<Tagged>, i: nat, j: nat)
    requires i <= j < |parts| && parts[j].0.Alert?
    ensures ImageBeforeNextAlert(parts[i..]) == ImageBeforeNextAlert(parts[i..j])
    decreases j - i
  {
    if i < j {
      assert parts[i..][1..] == parts[i + 1..] && parts[i..j][1..] == parts[i + 1..j];
      ImageBefore(parts, i + 1, j);
    }
  }

  /** Without a payload there is no pair. */
  lemma {:induction false} NothingToPair(parts: seq<Tagged>)
    requires forall i :: 0 <= i < |parts| ==> !parts[i].0.Alert?
    ensures Pairs(parts) == []
  {
    if parts != [] { NothingToPair(parts[1..]); }
  }

  // -------------------------------------------------------------- one step at a time

  function Flush(pending: Option<Bytes>): seq<EventPair> {
    if pending.Some? then [EventPair(pending.value, None)] else []
  }

  /** The pairs an arriving part completes. */
  function Completed(pending: Option<Bytes>, part: Tagged): seq<EventPair> {
    if pending.None? || part.0.Neither? then []
    else [EventPair(pending.value, if part.0.Jpeg? then Some(part.1) else None)]
  }

  function PendingAfter(pending: Option<Bytes>, part: Tagged): Option<Bytes> {
    match part.0
    case Alert => Some(part.1)
    case Jpeg => None
    case Neither => pending
  }

  /** What the remaining parts still owe when `pending` waits for its image. */
  function Owed(pending: Option<Bytes>, parts: seq<Tagged>): seq<EventPair> {
    (if pending.Some? then [EventPair(pending.value, ImageBeforeNextAlert(parts))] else []) + Pairs(parts)
  }

  lemma OwedNext(done: seq<EventPair>, pending: Option<Bytes>, parts: seq<Tagged>)
    requires parts != []
    ensures done + Owed(pending, parts)
         == done + Completed(pending, parts[0]) + Owed(PendingAfter(pending, parts[0]), parts[1..])
  {
    var first, rest := parts[0], parts[1..];
    assert Owed(pending, parts) == Completed(pending, first) + Owed(PendingAfter(pending, first), rest);
  }

  lemma OwedAtEnd(pending: Option<Bytes>)
    ensures Owed(pending, []) == Flush(pending)
  {
  }

  // -------------------------------------------------------------- buffered

  method PairEvents(parts: seq<Part>) returns (out: seq<EventPair>)
    ensures out == Pairs(Tag(BufferedKind, parts))
  {
    out := [];
    var pending: Option<Bytes> := None;
    ghost var tagged := Tag(BufferedKind, parts);
    assert [] + Owed(None, tagged[0..]) == Pairs(tagged) by { assert tagged[0..] == tagged; }
    hide Pairs;
    hide Owed;
    hide IsJpeg;
    hide IsAlert;
    for i := 0 to |parts|
      invariant out + Owed(pending, tagged[i..]) == Pairs(tagged)
    {
      var part := parts[i];
      ghost var before, waiting := out, pending;
      assert tagged[i..][1..] == tagged[i + 1..];
      OwedNext(out, pending, tagged[i..]);
      if IsJpeg(part) {
        if pending.Some? {
          out := out + [EventPair(pending.value, Some(part.body))];
          pending := None;
        }
      } else if IsAlert(part) {
        if pending.Some? { out := out + [EventPair(pending.value, None)]; }
        pending := Some(part.body);
      }
      assert out == before + Completed(waiting, tagged[i]) && pending == PendingAfter(waiting, tagged[i]);
    }
    assert tagged[|parts|..] == [];
    OwedAtEnd(pending);
    if pending.Some? { out := out + [EventPair(pending.value, None)]; } else { assert out + [] == out; }
  }

  // -------------------------------------------------------------- streamed

  /** The loop's two variables after the parts read so far. */
  function StreamState(parts: seq<Tagged>): (seq<EventPair>, Option<Bytes>) {
    if parts == [] then ([], None) else
    var (emitted, pending) := StreamState(parts[..|parts| - 1]);
    (emitted + Completed(pending, parts[|parts| - 1]), PendingAfter(pending, parts[|parts| - 1]))
  }

  /** At every moment, what has been ingested and what the rest still owes make up all the pairs. */
  lemma {:induction false} StreamIsOnTrack(parts: seq<Tagged>, rest: seq<Tagged>)
    ensures StreamState(parts).0 + Owed(StreamState(parts).1, rest) == Pairs(parts + rest)
    decreases |parts|
  {
    if parts == [] {
      assert parts + rest == rest && [] + Owed(None, rest) == Pairs(rest);
    } else {
      var before, last := parts[..|parts| - 1], parts[|parts| - 1];
      StreamIsOnTrack(before, [last] + rest);
      assert before + ([last] + rest) == parts + rest;
      assert ([last] + rest)[1..] == rest;
      OwedNext(StreamState(before).0, StreamState(before).1, [last] + rest);
    }
  }

  class StreamSession {
    var pendingAlert: Option<Bytes>
    var ingested: seq<EventPair>
    ghost var seen: seq<Part>

    ghost predicate Valid()
      reads this
    {
      (ingested, pendingAlert) == StreamState(Tag(StreamedKind, seen))
    }

    constructor ()
      ensures Valid() && seen == [] && ingested == []
    {
      pendingAlert, ingested, seen := None, [], [];
    }

    /** One turn of the loop; `ok` is false when storing a completed pair failed, which ends the
        connection with that payload already taken. */
    method Receive(part: Part, stores: bool) returns (ok: bool)
      requires Valid()
      modifies this
      ensures ok == (stores || Completed(old(pendingAlert), (StreamedKind(part), part.body)) == [])
      ensures ok ==> Valid() && seen == old(seen) + [part]
      ensures !ok ==> ingested == old(ingested) && pendingAlert == None
    {
      ghost var tagged := Tag(StreamedKind, seen + [part]);
      assert tagged[..|tagged| - 1] == Tag(StreamedKind, seen);
      hide StreamedAlert;
      hide StreamedJpeg;
      if StreamedAlert(part) {
        if pendingAlert.Some? {
          var pending := pendingAlert.value;
          pendingAlert := None;
          if !stores { return false; }
          ingested := ingested + [EventPair(pending, None)];
        }
        pendingAlert := Some(part.body);
      } else if StreamedJpeg(part) {
        if pendingAlert.Some? {
          var pending := pendingAlert.value;
          pendingAlert := None;
          if !stores { return false; }
          ingested := ingested + [EventPair(pending, Some(part.body))];
        }
      }
      assert ingested == old(ingested) + Completed(old(pendingAlert), (StreamedKind(part), part.body));
      assert tagged[|tagged| - 1] == (StreamedKind(part), part.body);
      seen := seen + [part];
      ok := true;
    }

    /** A clean end of stream ingests the payload still waiting. */
    method Finish()
      requires Valid()
      modifies this`pendingAlert, this`ingested
      ensures ingested == Pairs(Tag(StreamedKind, seen)) && pendingAlert == None
    {
      StreamIsOnTrack(Tag(StreamedKind, seen), []);
      OwedAtEnd(pendingAlert);
      assert Tag(StreamedKind, seen) + [] == Tag(StreamedKind, seen);
      if pendingAlert.Some? {
        ingested := ingested + [EventPair(pendingAlert.value, None)];
        pendingAlert := None;
      } else {
        assert ingested + [] == ingested;
      }
    }
  }

  /** After any prefix of parts on which the readers agree, what the stream has ingested and would
      still flush is what the buffered reader makes of that prefix. */
  lemma StreamedEqualsBuffered(prefix: seq<Part>)
    requires forall p :: p in prefix ==> BufferedKind(p) == StreamedKind(p)
    ensures var (ingested, pending) := StreamState(Tag(StreamedKind, prefix));
      ingested + Flush(pending) == Pairs(Tag(BufferedKind, prefix))
  {
    var tagged := Tag(StreamedKind, prefix);
    assert tagged == Tag(BufferedKind, prefix);
    StreamIsOnTrack(tagged, []);
    OwedAtEnd(StreamState(tagged).1);
    assert tagged + [] == tagged;
  }
}
