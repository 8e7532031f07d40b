/** The in-memory settings store of `app/config/config.py`: a two-level
    dictionary of detector parameters, read through getters that attach
    fixed slider bounds and written through setters that change exactly one
    entry. Loading and saving the JSON file are I/O. */
module Settings {
  import opened Common
  import opened DetUtil
  import opened BallFinder

  /** A JSON scalar of the store. */
  datatype Value = Str(s: string) | Int(i: int) | Num(r: real)

  /** A top-level entry: a scalar, or a section of named scalars. */
  datatype Entry = Leaf(v: Value) | Section(fields: map<string, Value>)

  type Conf = map<string, Entry>

  /** `DEFAULT_CONF`. */
  const DefaultConf: Conf := map[
    "Detector" := Leaf(Str("YOLO")),
    "YOLO" := Section(map["model" := Str("yolo11n-seg.pt"), "classId" := Int(32), "minConfidence" := Num(0.1)]),
    "GaussianBlur" := Section(map["ksize" := Int(5), "sigmaX" := Int(0)]),
    "Canny" := Section(map["threshold1" := Int(125), "threshold2" := Int(96)]),
    "Dilate" := Section(map["kernel" := Int(8), "iterations" := Int(3)]),
    "HoughCircles" := Section(map["dp" := Int(1), "minDist" := Int(600), "param1" := Int(30),
                                  "param2" := Int(17), "minRadius" := Int(50), "maxRadius" := Int(200)]),
    "FindContours" := Section(map["points" := Int(30), "minRelScale" := Num(0.75), "maxRelScale" := Num(1.25)]),
    "ShowTargets" := Section(map["points" := Int(20)])
  ]

  /** The properties of `Config` that have a getter and a setter. */
  datatype Setting =
    | KSize | SigmaX | Threshold1 | Threshold2 | Kernel | Iterations
    | Dp | MinDist | Param1 | Param2 | MinRadius | MaxRadius

  /** The section and the key a property reads and writes. */
  function Key(s: Setting): (string, string) {
    match s
    case KSize => ("GaussianBlur", "ksize")
    case SigmaX => ("GaussianBlur", "sigmaX")
    case Threshold1 => ("Canny", "threshold1")
    case Threshold2 => ("Canny", "threshold2")
    case Kernel => ("Dilate", "kernel")
    case Iterations => ("Dilate", "iterations")
    case Dp => ("HoughCircles", "dp")
    case MinDist => ("HoughCircles", "minDist")
    case Param1 => ("HoughCircles", "param1")
    case Param2 => ("HoughCircles", "param2")
    case MinRadius => ("HoughCircles", "minRadius")
    case MaxRadius => ("HoughCircles", "maxRadius")
  }

  /** The fixed slider bounds a getter reports. */
  function Bounds(s: Setting): (b: (int, int))
    ensures b.0 < b.1
  {
    match s
    case KSize => (1, 20)
    case SigmaX => (0, 20)
    case Threshold1 => (0, 255)
    case Threshold2 => (0, 255)
    case Kernel => (1, 20)
    case Iterations => (1, 50)
    case Dp => (1, 10)
    case MinDist => (10, 1000)
    case Param1 => (0, 255)
    case Param2 => (1, 100)
    case MinRadius => (0, 1000)
    case MaxRadius => (0, 1000)
  }

  /** `{"value": ..., "min": ..., "max": ...}` of a getter. */
  datatype Bounded = Bounded(value: Value, min: int, max: int)

  /** `str(KeyError(k))`. */
  function KeyMessage(k: string): string { "'" + k + "'" }

  /** Indexing a scalar with a key is a TypeError. */
  const NotSubscriptable := "object is not subscriptable"

  /** `conf[section][key]`, or the exception the lookup raises. */
  function Lookup(conf: Conf, section: string, key: string): (r: Result<Value>)
    ensures r.Success? <==> section in conf && conf[section].Section? && key in conf[section].fields
    ensures r.Success? ==> r.value == conf[section].fields[key]
  {
    if section !in conf then Failure(Raised(KeyMessage(section)))
    else match conf[section]
      case Leaf(_) => Failure(Raised(NotSubscriptable))
      case Section(fields) =>
        if key !in fields then Failure(Raised(KeyMessage(key))) else Success(fields[key])
  }

  /** `conf[section][key] = v`: the section must exist and be a dictionary;
      the key is added or overwritten. */
  function Store(conf: Conf, section: string, key: string, v: Value): Result<Conf> {
    if section !in conf then Failure(Raised(KeyMessage(section)))
    else match conf[section]
      case Leaf(_) => Failure(Raised(NotSubscriptable))
      case Section(fields) => Success(conf[section := Section(fields[key := v])])
  }

  /** Different properties live under different keys. */
  lemma KeysDistinct(s: Setting, t: Setting)
    ensures s != t ==> Key(s) != Key(t)
  {
  }

  /** A store writes one entry: reading it back gives the value written,
      every other (section, key) reads as before, and the store fails
      exactly when the section is missing or is not a dictionary. */
  lemma StoreThenLookup(conf: Conf, section: string, key: string, v: Value, section': string, key': string)
    ensures Store(conf, section, key, v).Success? <==> section in conf && conf[section].Section?
    ensures Store(conf, section, key, v).Success? ==>
              var conf' := Store(conf, section, key, v).value;
              && Lookup(conf', section, key) == Success(v)
              && ((section', key') != (section, key) ==> Lookup(conf', section', key') == Lookup(conf, section', key'))
              && conf'.Keys == conf.Keys
  {
  }

  /** The store of `config`: `Config`. */
  class Config {
    var conf: Conf

    /** `Config()` when the settings file is missing: the defaults. */
    constructor Defaults()
      ensures conf == DefaultConf
    {
      conf := DefaultConf;
    }

    /** `Config()` when the settings file is read: its contents. */
    constructor Loaded(contents: Conf)
      ensures conf == contents
    {
      conf := contents;
    }

    /** `reset`: the defaults again. */
    method Reset()
      modifies this
      ensures conf == DefaultConf
    {
      conf := DefaultConf;
    }

    /** `values`: a copy of the whole store. Maps are values here, so a
        change to the result cannot reach the store. */
    method Values() returns (v: Conf)
      ensures v == conf
    {
      v := conf;
    }

    /** The getter of a property: its value and its bounds, or the KeyError
        of a store loaded without that entry. */
    function Get(s: Setting): (r: Result<Bounded>)
      reads this
      ensures r.Success? <==> Lookup(conf, Key(s).0, Key(s).1).Success?
      ensures r.Success? ==>
                r.value == Bounded(Lookup(conf, Key(s).0, Key(s).1).value, Bounds(s).0, Bounds(s).1)
    {
      var v :- Lookup(conf, Key(s).0, Key(s).1);
      Success(Bounded(v, Bounds(s).0, Bounds(s).1))
    }

    /** The setter of a property: the one entry takes the value as given,
        without any check against the bounds. */
    method Set(s: Setting, v: Value) returns (r: Result<()>)
      modifies this
      ensures r.Success? <==> Key(s).0 in old(conf) && old(conf)[Key(s).0].Section?
      ensures r.Success? ==> conf == Store(old(conf), Key(s).0, Key(s).1, v).value
      ensures r.Failure? ==> conf == old(conf)
      ensures r.Success? ==> Get(s) == Success(Bounded(v, Bounds(s).0, Bounds(s).1))
      ensures r.Success? ==> forall t :: t != s ==> Get(t) == old(Get(t))
    {
      var stored := Store(conf, Key(s).0, Key(s).1, v);
      if stored.Failure? {
        return Failure(stored.error);
      }
      forall t | t != s
        ensures Lookup(stored.value, Key(t).0, Key(t).1) == Lookup(conf, Key(t).0, Key(t).1)
      {
        KeysDistinct(s, t);
        StoreThenLookup(conf, Key(s).0, Key(s).1, v, Key(t).0, Key(t).1);
      }
      StoreThenLookup(conf, Key(s).0, Key(s).1, v, Key(s).0, Key(s).1);
      conf := stored.value;
      return Success(());
    }
  }

  /** Every getter succeeds on the defaults, and every default lies within
      the bounds its getter reports. */
  lemma DefaultsInBounds(s: Setting)
    ensures Lookup(DefaultConf, Key(s).0, Key(s).1).Success?
    ensures var v := Lookup(DefaultConf, Key(s).0, Key(s).1).value;
            v.Int? && Bounds(s).0 <= v.i <= Bounds(s).1
  {
  }

  /** A JSON number as Python uses it: an integer or a float. */
  function AsReal(v: Value): real
    requires !v.Str?
  {
    if v.Int? then v.i as real else v.r
  }

  /** The part of the settings the ball finder reads: the detector, the
      contour search and the number of target points. The two search
      limits may be integers or floats; the two counts must be integers,
      as `np.linspace` demands. */
  function FinderSettings(conf: Conf): (r: Option<FinderConfig>)
    ensures r.Some? <==>
              && "Detector" in conf && conf["Detector"].Leaf? && conf["Detector"].v.Str?
              && Lookup(conf, "FindContours", "points").Success?
              && Lookup(conf, "FindContours", "points").value.Int?
              && Lookup(conf, "FindContours", "minRelScale").Success?
              && !Lookup(conf, "FindContours", "minRelScale").value.Str?
              && Lookup(conf, "FindContours", "maxRelScale").Success?
              && !Lookup(conf, "FindContours", "maxRelScale").value.Str?
              && Lookup(conf, "ShowTargets", "points").Success?
              && Lookup(conf, "ShowTargets", "points").value.Int?
    ensures r.Some? ==>
              && conf["Detector"] == Leaf(Str(r.value.detector))
              && conf["FindContours"].fields["points"] == Int(r.value.contours.points)
              && conf["ShowTargets"].fields["points"] == Int(r.value.targetPoints)
              && var (lo, hi) := (conf["FindContours"].fields["minRelScale"], conf["FindContours"].fields["maxRelScale"]);
                 && (lo == Num(r.value.contours.minRelScale) || (lo.Int? && lo.i as real == r.value.contours.minRelScale))
                 && (hi == Num(r.value.contours.maxRelScale) || (hi.Int? && hi.i as real == r.value.contours.maxRelScale))
  {
    var (n, lo, hi, t) := (Lookup(conf, "FindContours", "points"), Lookup(conf, "FindContours", "minRelScale"),
                           Lookup(conf, "FindContours", "maxRelScale"), Lookup(conf, "ShowTargets", "points"));
    if && "Detector" in conf && conf["Detector"].Leaf? && conf["Detector"].v.Str?
       && n.Success? && n.value.Int? && lo.Success? && !lo.value.Str?
       && hi.Success? && !hi.value.Str? && t.Success? && t.value.Int?
    then Some(FinderConfig(conf["Detector"].v.s, ContourSettings(n.value.i, AsReal(lo.value), AsReal(hi.value)), t.value.i))
    else None
  }

  /** An integer search limit is read as the same number as a float. */
  lemma IntegerScales(conf: Conf, lo: int, hi: int)
    requires FinderSettings(conf).Some?
    ensures var c := conf["FindContours"];
            var conf' := conf["FindContours" := Section(c.fields["minRelScale" := Int(lo)]["maxRelScale" := Int(hi)])];
            && FinderSettings(conf').Some?
            && FinderSettings(conf').value
               == FinderSettings(conf).value.(contours := ContourSettings(FinderSettings(conf).value.contours.points, lo as real, hi as real))
  {
  }

  /** The defaults select the YOLO detector with 30 contour points searched
      between 0.75 and 1.25 candidate radii and 20 target points, which
      `BallFinder` accepts. */
  lemma DefaultFinder()
    ensures FinderSettings(DefaultConf) == Some(FinderConfig("YOLO", ContourSettings(30, 0.75, 1.25), 20))
    ensures NewFinder(FinderSettings(DefaultConf).value).Success?
  {
  }
}
