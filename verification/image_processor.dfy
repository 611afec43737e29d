/** `ImageProcessor.validate_and_process` of app/utils/image_processor.py:
    the checks an uploaded image passes before analysis.

    Decoding is an oracle: it either fails (PIL cannot open or verify the
    bytes) or yields the image's size, format and colour mode. Every
    rejection is the HTTP error 400 with a detail naming the failed check.
    The conversion to RGB is taken to succeed; in the code it runs outside
    the `try`, so a failing conversion would raise a different error. */
module ImageProcessor {
  import opened Options
  import opened Text

  /** The largest accepted upload, in bytes (10 MiB). */
  const MaxImageSize: nat := 10 * 1024 * 1024
  /** The largest accepted width or height, in pixels. */
  const MaxDimension: nat := 4096
  /** The smallest accepted width or height, in pixels. */
  const MinDimension: nat := 50

  /** The HTTP status of every rejection. */
  const BadRequest := 400

  /** An opened image: `image.size`, `image.format` (None when PIL cannot
      name it) and `image.mode`. */
  datatype Decoded = Decoded(width: nat, height: nat, format: Option<string>, mode: string)

  /** `Image.open` followed by `verify` and a second `Image.open`: None when
      any of them raises. */
  type Decoder = seq<bv8> -> Option<Decoded>

  /** The dictionary returned for an accepted image. `format` is read before
      any conversion; `image` is the opened image, converted to RGB (and so
      without a format) when its mode was neither RGB nor L. */
  datatype Info = Info(width: nat, height: nat, format: Option<string>, mode: string,
                       sizeBytes: nat, image: Decoded)

  datatype Outcome = Accepted(info: Info) | Rejected(statusCode: int, detail: string)

  /** `f"Image too large. Max size: {MAX_IMAGE_SIZE / 1024 / 1024}MB"`; the
      division is a float division of a whole number of MiB, printed with
      one decimal. */
  const FileTooLarge := "Image too large. Max size: " + NatToString(MaxImageSize / 1024 / 1024) + ".0MB"
  const Corrupted := "Invalid image file. File may be corrupted."
  const DimensionsTooLarge :=
    "Image dimensions too large. Max: " + NatToString(MaxDimension) + "x" + NatToString(MaxDimension) + "px"
  const DimensionsTooSmall :=
    "Image dimensions too small. Min: " + NatToString(MinDimension) + "x" + NatToString(MinDimension) + "px"

  /** The modes kept as they are; "L" is grayscale. */
  predicate KeptMode(mode: string)
  {
    mode == "RGB" || mode == "L"
  }

  /** Both sides within the accepted dimensions. */
  predicate WithinBounds(d: Decoded)
  {
    MinDimension <= d.width <= MaxDimension && MinDimension <= d.height <= MaxDimension
  }

  /** `image.convert("RGB")` when the mode is not kept. PIL gives a
      converted image no `format`, as for every image it creates. */
  function Normalise(d: Decoded): (r: Decoded)
    ensures KeptMode(r.mode)
    ensures r.width == d.width && r.height == d.height
    ensures KeptMode(d.mode) <==> r == d
    ensures !KeptMode(d.mode) ==> r.mode == "RGB" && r.format.None?
  {
    if KeptMode(d.mode) then d else d.(mode := "RGB", format := None)
  }

  /** `validate_and_process`. `filename` only appears in log lines. */
  function ValidateAndProcess(data: seq<bv8>, filename: string, decode: Decoder): (r: Outcome)
    ensures r.Accepted? <==>
              |data| <= MaxImageSize && decode(data).Some? && WithinBounds(decode(data).value)
    ensures r.Rejected? ==> r.statusCode == BadRequest
    ensures r.Accepted? ==>
              var d := decode(data).value;
              && r.info.width == d.width && r.info.height == d.height
              && r.info.format == d.format && r.info.sizeBytes == |data|
              && KeptMode(r.info.mode) && r.info.image.mode == r.info.mode
              && (KeptMode(d.mode) ==> r.info.mode == d.mode)
              && (!KeptMode(d.mode) ==> r.info.mode == "RGB")
              && r.info.image.width == d.width && r.info.image.height == d.height
              && (KeptMode(d.mode) ==> r.info.image == d)
              && (!KeptMode(d.mode) ==> r.info.image.format.None?)
  {
    if |data| > MaxImageSize then Rejected(BadRequest, FileTooLarge)
    else
      match decode(data)
      case None => Rejected(BadRequest, Corrupted)
      case Some(d) =>
        if d.width > MaxDimension || d.height > MaxDimension then Rejected(BadRequest, DimensionsTooLarge)
        else if d.width < MinDimension || d.height < MinDimension then Rejected(BadRequest, DimensionsTooSmall)
        else
          var image := Normalise(d);
          Accepted(Info(d.width, d.height, d.format, image.mode, |data|, image))
  }

  /** The details as the client reads them. */
  lemma DetailTexts()
    ensures FileTooLarge == "Image too large. Max size: 10.0MB"
    ensures DimensionsTooLarge == "Image dimensions too large. Max: 4096x4096px"
    ensures DimensionsTooSmall == "Image dimensions too small. Min: 50x50px"
  {
    assert NatToString(10) == "10";
    assert NatToString(4096) == "4096" by {
      assert NatToString(409) == "409" by {
        assert NatToString(40) == "40";
      }
    }
    assert NatToString(50) == "50";
  }

  /** The detail messages are pairwise distinct, so a detail names exactly
      one failed check. */
  lemma DetailsDistinct()
    ensures FileTooLarge != Corrupted && FileTooLarge != DimensionsTooLarge && FileTooLarge != DimensionsTooSmall
    ensures Corrupted != DimensionsTooLarge && Corrupted != DimensionsTooSmall
    ensures DimensionsTooLarge != DimensionsTooSmall
  {
    assert FileTooLarge[1] == 'm' && Corrupted[1] == 'n';
    assert FileTooLarge[6] == 't' && DimensionsTooLarge[6] == 'd' && DimensionsTooSmall[6] == 'd';
    assert Corrupted[1] == 'n' && DimensionsTooLarge[1] == 'm' && DimensionsTooSmall[1] == 'm';
    assert DimensionsTooLarge[21] == 'l' && DimensionsTooSmall[21] == 's';
  }

  /** Each rejection detail holds exactly when its check is the first one to
      fail: size, then decoding, then the maximum, then the minimum. */
  lemma RejectionReasons(data: seq<bv8>, filename: string, decode: Decoder)
    ensures var r := ValidateAndProcess(data, filename, decode);
            && (r == Rejected(BadRequest, FileTooLarge) <==> |data| > MaxImageSize)
            && (r == Rejected(BadRequest, Corrupted) <==> |data| <= MaxImageSize && decode(data).None?)
            && (r == Rejected(BadRequest, DimensionsTooLarge) <==>
                  && |data| <= MaxImageSize && decode(data).Some?
                  && (decode(data).value.width > MaxDimension || decode(data).value.height > MaxDimension))
            && (r == Rejected(BadRequest, DimensionsTooSmall) <==>
                  && |data| <= MaxImageSize && decode(data).Some?
                  && decode(data).value.width <= MaxDimension && decode(data).value.height <= MaxDimension
                  && (decode(data).value.width < MinDimension || decode(data).value.height < MinDimension))
  {
    DetailsDistinct();
  }

  /** An oversized upload is rejected before any decoding: the decoder's
      answer does not matter. */
  lemma OversizeNeverDecoded(data: seq<bv8>, filename: string, decode: Decoder, other: Decoder)
    requires |data| > MaxImageSize
    ensures ValidateAndProcess(data, filename, decode) == ValidateAndProcess(data, filename, other)
  {
  }

  /** The maximum is checked before the minimum: a 5000x10 image is reported
      as too large, although it is also too narrow. */
  lemma WideAndFlatIsTooLarge(data: seq<bv8>, filename: string, decode: Decoder, format: Option<string>, mode: string)
    requires |data| <= MaxImageSize
    requires decode(data) == Some(Decoded(5000, 10, format, mode))
    ensures ValidateAndProcess(data, filename, decode).detail == DimensionsTooLarge
    ensures ValidateAndProcess(data, filename, decode).detail != DimensionsTooSmall
  {
    DetailsDistinct();
  }

  /** A converted image is not converted again. */
  lemma NormaliseIdempotent(d: Decoded)
    ensures Normalise(Normalise(d)) == Normalise(d)
  {
  }
}
