/** Helpers of the CLI (drunkdeer/utils.go): URL detection, profile path
    resolution and device selection by index.

    Paths are plain strings. `filepath.IsAbs` is "starts with '/'" and
    `filepath.Join` is joining with one '/', the POSIX reading without the
    clean-up of `.` and `..` elements. */
module CliUtils {
  import opened Wrappers
  import opened Faults
  import opened Strings
  import opened Hid

  const JsonSuffix: string := ".json"

  /** `isURL`: starts with "http" and contains "://" somewhere. */
  function IsUrl(path: string): (r: bool)
    ensures r <==> |path| >= 4 && path[..4] == "http" && exists i :: OccursAt(path, "://", i)
  {
    HasPrefix(path, "http") && Contains(path, "://")
  }

  lemma IsUrlExamples()
    ensures IsUrl("https://example.com/p.json")
    ensures !IsUrl("profile.json")
    ensures !IsUrl("ftp://example.com")
  {
    assert OccursAt("https://example.com/p.json", "://", 5);
    assert "profile.json"[..4][0] == 'p';
    assert "ftp://example.com"[..4][0] == 'f';
  }

  /** A path that does not start with "http" is a file path, whatever else it holds. */
  lemma NoHttpNoUrl(path: string)
    requires |path| < 4 || path[0] != 'h'
    ensures !IsUrl(path)
  {
  }

  predicate IsAbs(path: string) {
    |path| > 0 && path[0] == '/'
  }

  function Join(dir: string, name: string): (r: string)
    ensures |r| == |dir| + 1 + |name|
    ensures r[..|dir|] == dir && r[|dir|] == '/' && r[|dir| + 1..] == name
  {
    dir + "/" + name
  }

  /** A joined path ends in ".json" exactly when its last element does: the
      separator cannot be part of the suffix. */
  lemma JoinedSuffix(dir: string, name: string)
    ensures HasSuffix(Join(dir, name), JsonSuffix) <==> HasSuffix(name, JsonSuffix)
  {
    var joined := Join(dir, name);
    var n := |joined|;
    if |name| >= 5 {
      assert joined[n - 5..] == name[|name| - 5..];
    }
  }

  /** `resolveProfilePath`: an absolute path is kept; a relative one is put
      under the profile directory and gets ".json" unless it already ends
      in it. */
  function ResolveProfilePath(profileDir: string, loadPath: string): (r: string)
    ensures IsAbs(loadPath) ==> r == loadPath
    ensures !IsAbs(loadPath) ==> HasSuffix(r, JsonSuffix)
    ensures !IsAbs(loadPath) && HasSuffix(loadPath, JsonSuffix) ==> r == Join(profileDir, loadPath)
    ensures !IsAbs(loadPath) && !HasSuffix(loadPath, JsonSuffix) ==> r == Join(profileDir, loadPath) + JsonSuffix
  {
    if IsAbs(loadPath) then loadPath
    else
      var joined := Join(profileDir, loadPath);
      JoinedSuffix(profileDir, loadPath);
      AppendedHasSuffix(joined, JsonSuffix);
      if HasSuffix(joined, JsonSuffix) then joined else joined + JsonSuffix
  }

  /** A relative path resolves to a name ending in ".json.json" only when it
      already ended so, and resolving the result again under the same
      directory adds the directory again but no second ".json". */
  lemma ResolveNeverDoublesSuffix(profileDir: string, loadPath: string)
    requires !IsAbs(loadPath)
    ensures HasSuffix(ResolveProfilePath(profileDir, loadPath), JsonSuffix + JsonSuffix)
        <==> HasSuffix(loadPath, JsonSuffix + JsonSuffix)
    ensures !IsAbs(ResolveProfilePath(profileDir, loadPath)) ==>
      ResolveProfilePath(profileDir, ResolveProfilePath(profileDir, loadPath))
        == Join(profileDir, ResolveProfilePath(profileDir, loadPath))
  {
    var joined := Join(profileDir, loadPath);
    var double := JsonSuffix + JsonSuffix;
    if HasSuffix(loadPath, JsonSuffix) {
      if |loadPath| >= 10 {
        assert joined[|joined| - 10..] == loadPath[|loadPath| - 10..];
      }
    } else {
      var r := joined + JsonSuffix;
      JoinedSuffix(profileDir, loadPath);
      if |r| >= 10 {
        assert r[|r| - 10..][..5] == joined[|joined| - 5..] != JsonSuffix == double[..5];
      }
    }
  }

  /** `getDevice` before the device is opened: an empty list is "no devices
      found", an index outside it is "invalid keyboard index". */
  function GetDevice(devices: seq<DeviceInfo>, index: int): (r: Result<DeviceInfo, Fault>)
    ensures |devices| == 0 ==> r == Failure(NoDevices)
    ensures |devices| > 0 && !(0 <= index < |devices|) ==> r == Failure(InvalidKeyboardIndex)
    ensures r.Success? <==> 0 <= index < |devices|
    ensures r.Success? ==> r.value == devices[index]
  {
    if |devices| == 0 then Failure(NoDevices)
    else if index < 0 || index >= |devices| then Failure(InvalidKeyboardIndex)
    else Success(devices[index])
  }
}
