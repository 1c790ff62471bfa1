/** The bookkeeping the main window does around its dialogs: playback speed
    steps, the default and the accepted names of a new object, the id of a
    new custom colour, and the project file and display names. */
module MainWindowLogic {
  import opened Common
  import opened OrderedMaps
  import opened PathNames
  import opened TimeConversion

  /** `slower()` stops at this speed step. */
  const SLOWEST_SPEED := -4

  datatype ObjectColor = ObjectColor(r: int, g: int, b: int)

  /** An entry of the colour table: its display name and its colour. */
  datatype NamedColor = NamedColor(name: string, color: ObjectColor)

  /** The default name offered for the `n`-th object. */
  function ObjectName(n: nat): (s: string)
    ensures |s| > 7 && s[..7] == "Object "
  {
    "Object " + Decimal(n)
  }

  /** Different numbers give different default names. */
  lemma ObjectNameInjective(a: nat, b: nat)
    requires ObjectName(a) == ObjectName(b)
    ensures a == b
  {
    assert Decimal(a) == ObjectName(a)[7..];
    assert Decimal(b) == ObjectName(b)[7..];
    DecimalValue(a);
    DecimalValue(b);
  }

  /** A set that holds the default names of `lo` up to `hi` has at least
      that many elements. */
  lemma {:induction false} ListedNamesBound(lo: nat, hi: nat, names: set<string>)
    requires lo <= hi
    requires forall k :: lo <= k < hi ==> ObjectName(k) in names
    ensures hi - lo <= |names|
    decreases hi - lo
  {
    if lo < hi {
      var last := ObjectName(hi - 1);
      var rest := names - {last};
      forall k | lo <= k < hi - 1
        ensures ObjectName(k) in rest
      {
        if ObjectName(k) == last {
          ObjectNameInjective(k, hi - 1);
        }
      }
      ListedNamesBound(lo, hi - 1, rest);
    }
  }

  /** The default name of `enter_object_name` for a new object: "Object N"
      with N counting up from the number of objects plus one until the
      name is not in the list. */
  method DefaultObjectName(objectCount: nat, listed: seq<string>) returns (name: string, n: nat)
    ensures name == ObjectName(n) && name !in listed
    ensures n > objectCount
    ensures forall k :: objectCount < k < n ==> ObjectName(k) in listed
  {
    n := objectCount + 1;
    name := ObjectName(n);
    ghost var names := set x | x in listed;
    while name in listed
      invariant n > objectCount && name == ObjectName(n)
      invariant forall k :: objectCount < k < n ==> ObjectName(k) in listed
      decreases |names| - (n - objectCount - 1)
    {
      ListedNamesBound(objectCount + 1, n + 1, names);
      n := n + 1;
      name := ObjectName(n);
    }
  }

  /** What `enter_object_name` does with one name entered and confirmed. */
  datatype NameVerdict =
    | Accepted     // returns true
    | KeptOldName  // renaming to the current name: returns false
    | AskAgain     // empty or taken: warns and shows the dialog again

  function CheckEnteredName(name: string, listed: seq<string>, change: bool, current: string): (v: NameVerdict)
    ensures v == Accepted <==> name != "" && name !in listed
    ensures v == KeptOldName <==> name != "" && name in listed && change && name == current
  {
    if name == "" then AskAgain
    else if name in listed then
      if change && name == current then KeptOldName else AskAgain
    else Accepted
  }

  /** The default name is always accepted for a new object. */
  lemma DefaultNameAccepted(n: nat, listed: seq<string>, current: string)
    requires ObjectName(n) !in listed
    ensures CheckEnteredName(ObjectName(n), listed, false, current) == Accepted
  {
  }

  /** The id given to a new custom colour: one more than the greatest id in
      the table. */
  function NextColorId(ids: set<int>): (id: int)
    requires ids != {}
    ensures id !in ids
    ensures forall k :: k in ids ==> k < id
    ensures id - 1 in ids
  {
    Greatest(ids) + 1
  }

  /** The colour part of a project archive. */
  datatype SavedColors = SavedColors(customColorsCount: nat, colors: map<int, NamedColor>)

  /** The window's fields these slots update. */
  class MainWindow {
    var timerSpeed: int
    var customColorsCount: nat
    var colors: map<int, NamedColor>
    var projectFileName: string
    var projectName: string

    /** The settings `initial_application_settings` restores, with the
        built-in colour table. */
    constructor (palette: map<int, NamedColor>)
      ensures timerSpeed == 0 && customColorsCount == 0 && colors == palette
      ensures projectFileName == "" && projectName == ""
    {
      timerSpeed := 0;
      customColorsCount := 0;
      colors := palette;
      projectFileName := "";
      projectName := "";
    }

    /** `slower()`: one step slower, unless already at the slowest step. */
    method Slower()
      modifies this
      ensures timerSpeed == if old(timerSpeed) <= SLOWEST_SPEED then old(timerSpeed) else old(timerSpeed) - 1
      ensures old(timerSpeed) >= SLOWEST_SPEED ==> timerSpeed >= SLOWEST_SPEED
      ensures customColorsCount == old(customColorsCount) && colors == old(colors)
      ensures projectFileName == old(projectFileName) && projectName == old(projectName)
    {
      if timerSpeed <= SLOWEST_SPEED {
        return;
      }
      timerSpeed := timerSpeed - 1;
    }

    /** `color_picker` after the colour dialog: on Cancel nothing changes;
        otherwise the colour is added as "Custom #k" under a fresh id.
        Taking the greatest key (`rbegin()`) needs a non-empty table: it
        starts with the built-in colours, but a project that fails to load
        leaves it empty, and the program does not guard against that. */
    method PickColor(picked: Option<ObjectColor>) returns (ok: bool, newColorId: int)
      requires colors != map[]
      modifies this
      ensures !ok <==> picked.None?
      ensures !ok ==> customColorsCount == old(customColorsCount) && colors == old(colors)
      ensures ok ==> customColorsCount == old(customColorsCount) + 1
      ensures ok ==> newColorId == NextColorId(old(colors).Keys) && newColorId !in old(colors)
      ensures ok ==> colors == old(colors)[newColorId := NamedColor("Custom #" + Decimal(customColorsCount), picked.value)]
      ensures timerSpeed == old(timerSpeed)
      ensures projectFileName == old(projectFileName) && projectName == old(projectName)
    {
      if picked.None? {
        return false, 0;
      }
      customColorsCount := customColorsCount + 1;
      var colorName := "Custom #" + Decimal(customColorsCount);
      newColorId := NextColorId(colors.Keys);
      colors := colors[newColorId := NamedColor(colorName, picked.value)];
      ok := true;
    }

    /** The naming part of `save_project`: no file chosen returns false;
        otherwise the format's extension is appended when missing, and the
        display name is taken from the resulting path. */
    method SaveProject(chosen: string, xml: bool) returns (ok: bool)
      modifies this
      ensures ok <==> chosen != ""
      ensures !ok ==> projectFileName == old(projectFileName) && projectName == old(projectName)
      ensures ok ==> projectFileName == WithSuffix(chosen, if xml then ".xml" else ".json")
      ensures ok ==> projectName == ProjectName(projectFileName)
      ensures timerSpeed == old(timerSpeed) && customColorsCount == old(customColorsCount)
      ensures colors == old(colors)
    {
      if chosen == "" {
        return false;
      }
      var filename := chosen;
      if xml {
        if !EndsWith(filename, ".xml") {
          filename := filename + ".xml";
        }
      } else {
        if !EndsWith(filename, ".json") {
          filename := filename + ".json";
        }
      }
      projectFileName := filename;
      projectName := ProjectName(projectFileName);
      ok := true;
    }

    /** `load_project` as far as the window's fields go: the chosen path is
        stored before it is checked, so Cancel leaves the file name empty;
        otherwise the colour table is cleared before the archive is read,
        so a project that cannot be read leaves it empty; a read project
        brings its colour table and custom-colour count; the display name
        follows only once the video opens too. */
    method LoadProject(chosen: string, archive: Option<SavedColors>, videoOpened: bool)
      modifies this
      ensures projectFileName == chosen
      ensures chosen == "" ==> colors == old(colors) && customColorsCount == old(customColorsCount)
      ensures chosen != "" && archive.None? ==> colors == map[] && customColorsCount == old(customColorsCount)
      ensures chosen != "" && archive.Some? ==>
        colors == archive.value.colors && customColorsCount == archive.value.customColorsCount
      ensures projectName == if chosen != "" && archive.Some? && videoOpened then ProjectName(chosen) else old(projectName)
      ensures timerSpeed == old(timerSpeed)
    {
      projectFileName := chosen;
      if projectFileName == "" {
        return;
      }
      colors := map[];
      if archive.None? {
        return;
      }
      customColorsCount := archive.value.customColorsCount;
      colors := archive.value.colors;
      if !videoOpened {
        return;
      }
      projectName := ProjectName(projectFileName);
    }
  }
}
