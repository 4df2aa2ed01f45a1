/**
 * The per-message logic of the transformation service's WebSocket handler:
 * reading the message fields with their defaults, extracting the base64
 * payload from the image data URI, and choosing for every detected face
 * between the neural face swap and the geometric morph, or passing the frame
 * through untouched.
 *
 * Decoding the payload, landmark detection and the face swap itself are
 * foreign code: their results are parameters here.
 */
module Endpoint {
  import opened Wrappers
  import opened Landmarks
  import Morph

  /** The fields of an inbound message; `None` is a key the message does not carry. */
  datatype Message = Message(image: Option<string>, gender: Option<string>, intensity: Option<real>, useAiModel: Option<bool>)

  /** The processing parameters of one message. */
  datatype Params = Params(gender: string, intensity: real, useAiModel: bool)

  /** The message's parameters, with the defaults for missing fields. */
  function ReadParams(m: Message): Params {
    Params(m.gender.GetOr("female"), m.intensity.GetOr(0.5), m.useAiModel.GetOr(false))
  }

  /** Missing fields default to gender "female", intensity 0.5 and no neural model; present ones are kept. */
  lemma ParamDefaults(m: Message)
    ensures m.gender.None? ==> ReadParams(m).gender == "female"
    ensures m.intensity.None? ==> ReadParams(m).intensity == 0.5
    ensures m.useAiModel.None? ==> !ReadParams(m).useAiModel
    ensures m.gender.Some? ==> ReadParams(m).gender == m.gender.value
    ensures m.intensity.Some? ==> ReadParams(m).intensity == m.intensity.value
    ensures m.useAiModel.Some? ==> ReadParams(m).useAiModel == m.useAiModel.value
  {
  }

  /**
   * Splitting a string at every occurrence of `sep`: the pieces between
   * separators, in order, with an empty piece before a leading separator,
   * between adjacent ones and after a trailing one. There is always at least
   * one piece and no piece contains the separator.
   */
  function Split(s: string, sep: char): (parts: seq<string>)
    ensures |parts| >= 1
    ensures forall j :: 0 <= j < |parts| ==> sep !in parts[j]
    decreases |s|
  {
    if |s| == 0 then [""]
    else
      var rest := Split(s[1..], sep);
      if s[0] == sep then [""] + rest
      else [[s[0]] + rest[0]] + rest[1..]
  }

  /** The pieces joined back together with `sep` between consecutive ones. */
  function Join(parts: seq<string>, sep: char): string {
    if |parts| == 0 then ""
    else if |parts| == 1 then parts[0]
    else parts[0] + [sep] + Join(parts[1..], sep)
  }

  /** Joining the pieces of a split restores the original string. */
  lemma {:induction false} SplitJoin(s: string, sep: char)
    ensures Join(Split(s, sep), sep) == s
    decreases |s|
  {
    if |s| > 0 {
      var rest := Split(s[1..], sep);
      SplitJoin(s[1..], sep);
      if s[0] == sep {
        assert ([""] + rest)[1..] == rest;
        calc {
          Join(Split(s, sep), sep);
          "" + [sep] + Join(rest, sep);
          [s[0]] + s[1..];
        }
      } else {
        var parts := [[s[0]] + rest[0]] + rest[1..];
        if |rest| == 1 {
          calc {
            Join(parts, sep);
            [s[0]] + rest[0];
            [s[0]] + Join(rest, sep);
          }
        } else {
          assert parts[1..] == rest[1..];
          calc {
            Join(parts, sep);
            [s[0]] + rest[0] + [sep] + Join(rest[1..], sep);
            [s[0]] + Join(rest, sep);
          }
        }
      }
      assert s == [s[0]] + s[1..];
    }
  }

  /** A string splits into a single piece, itself, exactly when it does not contain the separator. */
  lemma {:induction false} SplitSingle(s: string, sep: char)
    ensures |Split(s, sep)| == 1 <==> sep !in s
    ensures sep !in s ==> Split(s, sep) == [s]
    decreases |s|
  {
    if |s| > 0 {
      SplitSingle(s[1..], sep);
      assert s == [s[0]] + s[1..];
    }
  }

  /** A separator-free prefix followed by a separator becomes the first piece on its own. */
  lemma {:induction false} SplitAfterPrefix(pre: string, sep: char, rest: string)
    requires sep !in pre
    ensures Split(pre + [sep] + rest, sep) == [pre] + Split(rest, sep)
    decreases |pre|
  {
    var s := pre + [sep] + rest;
    if |pre| == 0 {
      assert s == [sep] + rest;
      assert s[1..] == rest;
    } else {
      assert s[1..] == pre[1..] + [sep] + rest;
      SplitAfterPrefix(pre[1..], sep, rest);
      assert [pre[0]] + pre[1..] == pre;
    }
  }

  /** A separator-free piece followed by nothing or by a separator is the first piece of the split. */
  lemma {:induction false} SplitFirstPiece(piece: string, sep: char, tail: string)
    requires sep !in piece
    requires tail == [] || tail[0] == sep
    ensures Split(piece + tail, sep)[0] == piece
    decreases |piece|
  {
    var s := piece + tail;
    if |piece| == 0 {
      assert s == tail;
    } else {
      assert s[1..] == piece[1..] + tail;
      SplitFirstPiece(piece[1..], sep, tail);
      assert [piece[0]] + piece[1..] == piece;
    }
  }

  /** Why extracting the payload failed: the message had no image, or the image string had no comma. */
  datatype PayloadError = MissingImage | NoSeparator

  /** The payload of an image data URI: the second comma-separated piece. */
  function Payload(image: Option<string>): Result<string, PayloadError> {
    match image
    case None => Err(MissingImage)
    case Some(s) =>
      var parts := Split(s, ',');
      if |parts| < 2 then Err(NoSeparator) else Ok(parts[1])
  }

  /** The payload can be extracted exactly when the image string is present and contains a comma. */
  lemma PayloadDefinedIff(image: Option<string>)
    ensures Payload(image).Ok? <==> image.Some? && ',' in image.value
  {
    if image.Some? {
      SplitSingle(image.value, ',');
    }
  }

  /**
   * The payload is the text after the first comma, up to the next comma or the
   * end: a comma-free header, a comma, the payload and then nothing or more
   * text starting with a comma.
   */
  lemma PayloadOfDataUri(header: string, body: string, tail: string)
    requires ',' !in header && ',' !in body
    requires tail == [] || tail[0] == ','
    ensures Payload(Some(header + [','] + body + tail)) == Ok(body)
  {
    assert header + [','] + body + tail == header + [','] + (body + tail);
    SplitAfterPrefix(header, ',', body + tail);
    SplitFirstPiece(body, ',', tail);
  }

  /** The data URIs the service itself sends back carry their base64 text as payload. */
  lemma PayloadOfReply(base64: string)
    requires ',' !in base64
    ensures Payload(Some("data:image/jpeg;base64," + base64)) == Ok(base64)
  {
    PayloadOfDataUri("data:image/jpeg;base64", base64, []);
    assert "data:image/jpeg;base64," + base64 == "data:image/jpeg;base64" + [','] + base64 + [];
  }

  /** What decoding the payload yields: an exception, no image, or an image of the given size. */
  datatype Decoded = DecodeRaised | NotAnImage | Image(w: nat, h: nat)

  /** One detected face: its landmarks, and whether the face swapper raises on it. */
  datatype Face = Face(landmarks: seq<Landmark>, swapRaises: bool)

  /** The operation applied for one face; a morph records the control points handed to the warp. */
  datatype Step = Swapped | Morphed(src: seq<Morph.Point>, dst: seq<Morph.Point>)

  /**
   * The handler's response to one message: the session ends on an exception,
   * the frame is skipped when it is not an image, or a frame is sent back after
   * the given steps (none: the frame passes through unchanged).
   */
  datatype Outcome = Closed | Skipped | Sent(steps: seq<Step>)

  /** Whether a face goes to the face swapper. */
  predicate UsesSwapper(p: Params, swapperLoaded: bool) {
    p.useAiModel && swapperLoaded && p.gender == "female"
  }

  /** The geometric morph of one face. */
  function MorphStep(p: Params, f: Face, w: nat, h: nat): Step {
    Morphed(Morph.SourceList(f.landmarks, w, h), Morph.DestinationList(f.landmarks, w, h, p.gender, p.intensity))
  }

  /** The step for one face: the swap, falling back to the morph when the swap raises; otherwise the morph. */
  function FaceStep(p: Params, f: Face, w: nat, h: nat, swapperLoaded: bool): Step {
    if UsesSwapper(p, swapperLoaded) then
      (if f.swapRaises then MorphStep(p, f, w, h) else Swapped)
    else MorphStep(p, f, w, h)
  }

  /**
   * The response to one message. `detectRaises` says whether running the
   * landmark detector on the decoded frame raises; it only matters when a
   * detector is loaded.
   */
  function Handle(m: Message, decoded: Decoded, detectorLoaded: bool, detectRaises: bool, faces: seq<Face>, swapperLoaded: bool): Outcome {
    match Payload(m.image)
    case Err(_) => Closed
    case Ok(_) =>
      match decoded
      case DecodeRaised => Closed
      case NotAnImage => Skipped
      case Image(w, h) =>
        if detectorLoaded && detectRaises then Closed
        else if detectorLoaded && |faces| > 0 then
          var p := ReadParams(m);
          Sent(seq(|faces|, j requires 0 <= j < |faces| => FaceStep(p, faces[j], w, h, swapperLoaded)))
        else Sent([])
  }

  /**
   * The session ends exactly when the payload cannot be extracted, decoding it
   * raises, or the loaded detector raises on the decoded frame.
   */
  lemma ClosedIff(m: Message, decoded: Decoded, detectorLoaded: bool, detectRaises: bool, faces: seq<Face>, swapperLoaded: bool)
    ensures Handle(m, decoded, detectorLoaded, detectRaises, faces, swapperLoaded) == Closed
      <==> m.image.None? || ',' !in m.image.value || decoded == DecodeRaised
           || (decoded.Image? && detectorLoaded && detectRaises)
  {
    PayloadDefinedIff(m.image);
  }

  /** A frame is skipped, with no reply, exactly when its payload decodes to no image. */
  lemma SkippedIff(m: Message, decoded: Decoded, detectorLoaded: bool, detectRaises: bool, faces: seq<Face>, swapperLoaded: bool)
    ensures Handle(m, decoded, detectorLoaded, detectRaises, faces, swapperLoaded) == Skipped
      <==> Payload(m.image).Ok? && decoded == NotAnImage
  {
  }

  /**
   * A decoded frame passes through unchanged exactly when there is no detector,
   * or the detector runs without raising and finds no face.
   */
  lemma PassThroughIff(m: Message, w: nat, h: nat, detectorLoaded: bool, detectRaises: bool, faces: seq<Face>, swapperLoaded: bool)
    requires Payload(m.image).Ok?
    ensures Handle(m, Image(w, h), detectorLoaded, detectRaises, faces, swapperLoaded) == Sent([])
      <==> !detectorLoaded || (!detectRaises && faces == [])
  {
  }

  /**
   * When the detector runs without raising and finds faces, there is one step per face. A face is swapped
   * exactly when the neural model is requested, a swapper is loaded, the gender
   * is "female" and the swap does not raise; every other face is morphed with
   * the control points built from its own landmarks.
   */
  lemma StepChoice(m: Message, w: nat, h: nat, faces: seq<Face>, swapperLoaded: bool, j: nat)
    requires Payload(m.image).Ok? && j < |faces|
    ensures var out, p := Handle(m, Image(w, h), true, false, faces, swapperLoaded), ReadParams(m);
      out.Sent? && |out.steps| == |faces|
      && (out.steps[j] == Swapped <==> p.useAiModel && swapperLoaded && p.gender == "female" && !faces[j].swapRaises)
      && (out.steps[j] != Swapped ==>
            out.steps[j] == Morphed(Morph.SourceList(faces[j].landmarks, w, h),
                                    Morph.DestinationList(faces[j].landmarks, w, h, p.gender, p.intensity)))
  {
  }
}
