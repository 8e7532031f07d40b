/** Reading the camera calibration, `app/lib/config.py`: a JSON file holds
    the intrinsics as they are; an HDF5 file holds the 18 normalised
    parameters of `ipar`, which are converted to pixels of the given frame.
    The file tests and the parsers are I/O and come in as the contents of a
    `CameraFile`. */
module CameraConfig {
  import opened Common
  import opened Vectors
  import opened OcvCam

  /** What the file system says about one path: whether it parses as JSON
      and what `json.load` gives, whether it opens as HDF5 and what the
      dataset `/camera/param` holds at `[0, 0, 0, :]`. */
  datatype CameraFile = CameraFile(
    isJson: bool,
    json: Result<Intrinsics>,
    isHdf5: bool,
    hdf5Param: Result<seq<real>>)

  const JsonError := "Error reading JSON config file."
  const Hdf5Error := "Error reading HDF5 config file."
  const UnknownFormat := "Error reading config file. Unknown format"

  /** Normalised principal-point coordinate to pixels: -0.5 is the first
      pixel edge, 0 the centre, 0.5 the far edge. */
  function PixelCentre(c: real, extent: real): real {
    (c + 0.5) * extent
  }

  /** The 18 parameters with fx, fy, cx, cy converted to pixels of a frame of
      `height` by `width`; the distortion parameters are unchanged. */
  function PixelParameters(param: Ipar, height: real, width: real): (p: Ipar)
    ensures p[0] == param[0] * width && p[1] == param[1] * height
    ensures p[2] == PixelCentre(param[2], width) && p[3] == PixelCentre(param[3], height)
    ensures p[4..] == param[4..]
  {
    [param[0] * width, param[1] * height, PixelCentre(param[2], width), PixelCentre(param[3], height)]
      + param[4..]
  }

  /** `hdf5_conf_to_dict`: unpack the 18 parameters (anything else is a
      ValueError), scale the focal lengths, move the principal point, and
      build the zero-skew camera matrix and the 14 coefficients. */
  function Hdf5ConfToDict(param: seq<real>, height: int, width: int): (r: Result<Intrinsics>)
    ensures r.Success? <==> |param| == 18
    ensures r.Success? ==> PinholeMatrix(r.value.cameraMatrix) && |r.value.distortion| == 14
  {
    if |param| < 18 then Failure(Raised("not enough values to unpack (expected 18)"))
    else if |param| > 18 then Failure(Raised("too many values to unpack (expected 18)"))
    else
      var w, h := width as real, height as real;
      var fx, fy := param[0] * w, param[1] * h;
      var cx, cy := PixelCentre(param[2], w), PixelCentre(param[3], h);
      Success(Intrinsics(Mat3(V3(fx, 0.0, cx), V3(0.0, fy, cy), V3(0.0, 0.0, 1.0)), param[4..]))
  }

  /** The dictionary built from an HDF5 file is `from_ipar` of the
      parameters converted to pixels, so `to_ipar` of it gives back all 18
      stored values with only fx, fy, cx and cy converted. */
  lemma Hdf5IsFromIpar(param: Ipar, height: int, width: int)
    ensures Hdf5ConfToDict(param, height, width)
            == Success(FromIpar(PixelParameters(param, height as real, width as real)))
    ensures var cam := Hdf5ConfToDict(param, height, width).value;
            ToIpar(cam.cameraMatrix, cam.distortion) == Success(PixelParameters(param, height as real, width as real))
  {
    var p := PixelParameters(param, height as real, width as real);
    ToIparFromIpar(p);
  }

  /** The principal point runs from the first pixel edge through the centre
      to the far edge as its normalised coordinate runs from -0.5 to 0.5. */
  lemma PixelCentreLandmarks(extent: real)
    ensures PixelCentre(-0.5, extent) == 0.0
    ensures PixelCentre(0.0, extent) == extent / 2.0
    ensures PixelCentre(0.5, extent) == extent
    ensures extent > 0.0 ==> forall a, b :: a < b ==> PixelCentre(a, extent) < PixelCentre(b, extent)
  {
    if extent > 0.0 {
      forall a: real, b: real | a < b
        ensures PixelCentre(a, extent) < PixelCentre(b, extent)
      {
        MulPositive(b - a, extent);
      }
    }
  }

  /** `read_camera_config`: JSON first, then HDF5; the exception of either
      reader is replaced by the message of its format, and a file that is
      neither is refused. */
  method ReadCameraConfig(file: CameraFile, height: int, width: int) returns (r: Result<Intrinsics>)
    ensures file.isJson ==>
              r == if file.json.Success? then file.json else Failure(Raised(JsonError))
    ensures !file.isJson && file.isHdf5 ==>
              (r.Success? <==> file.hdf5Param.Success? && |file.hdf5Param.value| == 18)
    ensures !file.isJson && file.isHdf5 && r.Success? ==>
              r == Hdf5ConfToDict(file.hdf5Param.value, height, width)
    ensures !file.isJson && file.isHdf5 && r.Failure? ==> r.error == Raised(Hdf5Error)
    ensures !file.isJson && !file.isHdf5 ==> r == Failure(Raised(UnknownFormat))
  {
    if file.isJson {
      if file.json.Failure? {
        return Failure(Raised(JsonError));
      }
      r := file.json;
    } else if file.isHdf5 {
      var camera := match file.hdf5Param
        case Success(param) => Hdf5ConfToDict(param, height, width)
        case Failure(e) => Failure(e);
      if camera.Failure? {
        return Failure(Raised(Hdf5Error));
      }
      r := camera;
    } else {
      return Failure(Raised(UnknownFormat));
    }
  }
}
