/** Raw image helpers (RawUtils.py): the checks made before any conversion,
    the RGGB mosaic that turns an RGB image into simulated sensor data, and
    the white-balance settings handed to the raw developer. Reading and
    writing files and the developer itself are outside the model: whether
    the input and output files exist is given as booleans, images as arrays. */
module RawUtils {
  import opened Wrappers

  /** An unsigned 16-bit sample, the element type of the mosaic array. */
  newtype u16 = x: int | 0 <= x < 0x1_0000

  /** Why a conversion refuses to start. */
  datatype RawError = InputMissing | OutputExists

  /** The checks both converters make first: the input must exist, and an
      existing output is refused unless `overwrite` is set. A missing input
      is reported first. */
  function Precheck(inputExists: bool, outputExists: bool, overwrite: bool): (e: Option<RawError>)
    ensures e.None? <==> inputExists && (!outputExists || overwrite)
    ensures e == Some(InputMissing) <==> !inputExists
    ensures e == Some(OutputExists) <==> inputExists && outputExists && !overwrite
  {
    if !inputExists then Some(InputMissing)
    else if outputExists && !overwrite then Some(OutputExists)
    else None
  }

  /** The colour channel (0 red, 1 green, 2 blue) the RGGB pattern samples at
      row `x`, column `y`: the number of odd coordinates. */
  function BayerChannel(x: nat, y: nat): (c: nat)
    ensures c == x % 2 + y % 2
  {
    if y % 2 == 0 then
      if x % 2 == 0 then 0 else 1
    else
      if x % 2 == 0 then 1 else 2
  }

  /** Every 2x2 tile starting at an even row and column holds one red, two
      green and one blue sample, red top left and blue bottom right, and the
      pattern repeats every two rows and every two columns. */
  lemma {:induction false} BayerTile(i: nat, j: nat, x: nat, y: nat)
    ensures BayerChannel(2 * i, 2 * j) == 0 && BayerChannel(2 * i + 1, 2 * j + 1) == 2
    ensures BayerChannel(2 * i + 1, 2 * j) == 1 && BayerChannel(2 * i, 2 * j + 1) == 1
    ensures BayerChannel(x + 2, y) == BayerChannel(x, y) == BayerChannel(x, y + 2)
  {
    assert (2 * i) % 2 == 0 && (2 * j) % 2 == 0;
    assert (2 * i + 1) % 2 == 1 && (2 * j + 1) % 2 == 1;
    assert (x + 2) % 2 == x % 2 && (y + 2) % 2 == y % 2;
  }

  /** Copies one channel per pixel into a new array of the image's height
      and width, following the RGGB pattern (the nested loops of
      `simulate_bayer_filter`). */
  method Mosaic(rgb: array3<u16>) returns (bayer: array2<u16>)
    requires rgb.Length2 >= 3
    ensures fresh(bayer)
    ensures bayer.Length0 == rgb.Length0 && bayer.Length1 == rgb.Length1
    ensures forall x, y :: 0 <= x < bayer.Length0 && 0 <= y < bayer.Length1 ==>
      bayer[x, y] == rgb[x, y, BayerChannel(x, y)]
  {
    bayer := new u16[rgb.Length0, rgb.Length1];
    for x := 0 to rgb.Length0
      invariant forall i, j :: 0 <= i < x && 0 <= j < bayer.Length1 ==>
        bayer[i, j] == rgb[i, j, BayerChannel(i, j)]
    {
      for y := 0 to rgb.Length1
        invariant forall i, j :: 0 <= i < x && 0 <= j < bayer.Length1 ==>
          bayer[i, j] == rgb[i, j, BayerChannel(i, j)]
        invariant forall j :: 0 <= j < y ==> bayer[x, j] == rgb[x, j, BayerChannel(x, j)]
      {
        if y % 2 == 0 {
          if x % 2 == 0 {
            bayer[x, y] := rgb[x, y, 0];
          } else {
            bayer[x, y] := rgb[x, y, 1];
          }
        } else {
          if x % 2 == 0 {
            bayer[x, y] := rgb[x, y, 1];
          } else {
            bayer[x, y] := rgb[x, y, 2];
          }
        }
      }
    }
  }

  /** A white-balance argument as the caller passes it: a tuple of numbers,
      or anything that is not a tuple (None, a list, ...). */
  datatype WbArg = Tuple(items: seq<real>) | NotTuple

  predicate IsFourTuple(w: WbArg) {
    w.Tuple? && |w.items| == 4
  }

  /** The neutral multipliers used in place of an unusable custom balance. */
  const Unity: seq<real> := [1.0, 1.0, 1.0, 1.0]

  /** The balance `simulate_bayer_filter` settles on: the custom tuple when
      it is a tuple of four, the neutral one otherwise. */
  function SimulateWhiteBalance(custom: WbArg): (wb: seq<real>)
    ensures |wb| == 4
    ensures IsFourTuple(custom) ==> wb == custom.items
    ensures !IsFourTuple(custom) ==> wb == Unity
  {
    if !custom.Tuple? || !(|custom.items| == 4) then Unity else custom.items
  }

  /** Converts an RGB image to a simulated RGGB sensor image
      (`simulate_bayer_filter`): refuses, before any work, when a check
      fails; otherwise the result is the mosaic of the image. */
  method SimulateBayerFilter(inputExists: bool, outputExists: bool, overwrite: bool,
                             custom: WbArg, rgb: array3<u16>)
    returns (r: Result<array2<u16>, RawError>)
    requires rgb.Length2 >= 3
    ensures r.Err? <==> Precheck(inputExists, outputExists, overwrite).Some?
    ensures r.Err? ==> Some(r.error) == Precheck(inputExists, outputExists, overwrite)
    ensures r.Ok? ==> fresh(r.value)
    ensures r.Ok? ==> r.value.Length0 == rgb.Length0 && r.value.Length1 == rgb.Length1
    ensures r.Ok? ==> forall x, y :: 0 <= x < rgb.Length0 && 0 <= y < rgb.Length1 ==>
      r.value[x, y] == rgb[x, y, BayerChannel(x, y)]
  {
    if !inputExists {
      return Err(InputMissing);
    }
    if outputExists && !overwrite {
      return Err(OutputExists);
    }
    var wb := SimulateWhiteBalance(custom);
    var bayer := Mosaic(rgb);
    r := Ok(bayer);
  }

  /** The arguments `develop_raw` passes to the raw developer. */
  datatype Postprocess = Postprocess(
    noAutoBright: bool,
    halfSize: bool,
    bright: real,
    useCameraWb: bool,
    useAutoWb: bool,
    userWb: seq<real>)

  /** The developer settings `develop_raw` chooses. Camera white balance is
      used exactly when automatic balance is off and no four-tuple is given;
      the custom tuple survives only when automatic balance is off and it is
      a four-tuple; camera and automatic balance are never both on. */
  function DevelopSettings(brightness: real, auto: bool, custom: WbArg, halfSize: bool): (p: Postprocess)
    ensures p.noAutoBright && p.halfSize == halfSize && p.bright == brightness
    ensures p.useAutoWb == auto
    ensures p.useCameraWb <==> !auto && !IsFourTuple(custom)
    ensures !(p.useAutoWb && p.useCameraWb)
    ensures !auto && IsFourTuple(custom) ==> p.userWb == custom.items
    ensures auto || !IsFourTuple(custom) ==> p.userWb == Unity
    ensures |p.userWb| == 4
  {
    var cameraWb := !auto;
    if !auto && custom.Tuple? && |custom.items| == 4 then
      Postprocess(true, halfSize, brightness, false, auto, custom.items)
    else
      Postprocess(true, halfSize, brightness, cameraWb, auto, Unity)
  }

  /** `develop_raw`: the checks, then the developer settings. */
  function DevelopRaw(inputExists: bool, outputExists: bool, overwrite: bool, brightness: real,
                      auto: bool, custom: WbArg, halfSize: bool): (r: Result<Postprocess, RawError>)
    ensures r.Err? <==> Precheck(inputExists, outputExists, overwrite).Some?
    ensures r.Err? ==> Some(r.error) == Precheck(inputExists, outputExists, overwrite)
    ensures r.Ok? ==> r.value == DevelopSettings(brightness, auto, custom, halfSize)
    ensures r.Ok? ==> r.value.halfSize == halfSize && r.value.useAutoWb == auto
    ensures r.Ok? ==> !(r.value.useCameraWb && r.value.useAutoWb)
  {
    match Precheck(inputExists, outputExists, overwrite)
    case Some(e) => Err(e)
    case None => Ok(DevelopSettings(brightness, auto, custom, halfSize))
  }

  /** `quick_develop_raw`: develops at half size. */
  function QuickDevelopRaw(inputExists: bool, outputExists: bool, overwrite: bool, brightness: real,
                           auto: bool, custom: WbArg): (r: Result<Postprocess, RawError>)
    ensures r.Ok? ==> r.value.halfSize
  {
    DevelopRaw(inputExists, outputExists, overwrite, brightness, auto, custom, true)
  }

  /** `high_quality_develop_raw`: develops at full size. */
  function HighQualityDevelopRaw(inputExists: bool, outputExists: bool, overwrite: bool, brightness: real,
                                 auto: bool, custom: WbArg): (r: Result<Postprocess, RawError>)
    ensures r.Ok? ==> !r.value.halfSize
  {
    DevelopRaw(inputExists, outputExists, overwrite, brightness, auto, custom, false)
  }

  /** The quick and the high-quality developers accept and refuse the same
      calls, and differ only in the half-size flag. */
  lemma QuickDiffersOnlyInSize(inputExists: bool, outputExists: bool, overwrite: bool, brightness: real,
                               auto: bool, custom: WbArg)
    ensures var q := QuickDevelopRaw(inputExists, outputExists, overwrite, brightness, auto, custom);
      var h := HighQualityDevelopRaw(inputExists, outputExists, overwrite, brightness, auto, custom);
      q.Ok? == h.Ok? && (q.Err? ==> q == h) && (q.Ok? ==> q.value == h.value.(halfSize := true))
  {
  }
}
