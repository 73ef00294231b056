/**
 * Platform and device selection (oclhelpers.cpp). The runtime is plain data:
 * the list of platforms cl::Platform::get enumerates, in order, each with the
 * name getInfo<CL_PLATFORM_NAME> reports and the CPU and GPU lists
 * getDevices reports.
 */
module Platforms {

  import opened Wrappers
  import opened Exceptions

  /** A device handle. */
  datatype Device = Device(handle: nat)

  datatype Platform = Platform(name: string, cpus: seq<Device>, gpus: seq<Device>)

  /** CL_DEVICE_TYPE_CPU and CL_DEVICE_TYPE_GPU. */
  datatype DeviceType = Cpu | Gpu

  const NoPlatformFound: OclHelpersException := OclHelpersException("No platform found!")

  /**
   * get_devices, and get_cpus and get_gpus through it: the devices of one
   * type that the platform reports, in the order it reports them.
   */
  function Devices(p: Platform, t: DeviceType): (ds: seq<Device>)
    ensures t == Cpu ==> ds == p.cpus
    ensures t == Gpu ==> ds == p.gpus
  {
    match t
    case Cpu => p.cpus
    case Gpu => p.gpus
  }

  /** get_platforms: the enumerated platforms, or an exception if there are none. */
  function GetPlatforms(enumerated: seq<Platform>): (r: Result<seq<Platform>>)
    ensures r.Err? <==> enumerated == []
    ensures r.Err? ==> r.error == NoPlatformFound
    ensures r.Ok? ==> r.value == enumerated
  {
    if |enumerated| == 0 then Err(NoPlatformFound) else Ok(enumerated)
  }

  /** get_default_platform: the first enumerated platform. */
  function GetDefaultPlatform(enumerated: seq<Platform>): (r: Result<Platform>)
    ensures r.Err? <==> enumerated == []
    ensures r.Err? ==> r.error == NoPlatformFound
    ensures r.Ok? ==> r.value == enumerated[0]
  {
    var platforms :- GetPlatforms(enumerated);
    Ok(platforms[0])
  }

  /** True when needle occurs in hay at position i. */
  predicate OccursAt(hay: string, needle: string, i: nat) {
    i + |needle| <= |hay| && hay[i..i + |needle|] == needle
  }

  /** True when needle occurs somewhere in hay. */
  ghost predicate Contains(hay: string, needle: string) {
    exists i: nat :: OccursAt(hay, needle, i)
  }

  /** std::string::find: the first position at which needle occurs, if any. */
  function Find(hay: string, needle: string): (r: Option<nat>)
    ensures r.Some? <==> Contains(hay, needle)
    ensures r.Some? ==> OccursAt(hay, needle, r.value)
    ensures r.Some? ==> forall i: nat :: i < r.value ==> !OccursAt(hay, needle, i)
    decreases |hay|
  {
    if |hay| < |needle| then
      assert forall i: nat :: !OccursAt(hay, needle, i);
      None
    else if hay[..|needle|] == needle then
      assert OccursAt(hay, needle, 0);
      Some(0)
    else
      assert !OccursAt(hay, needle, 0);
      OccursInTail(hay, needle);
      match Find(hay[1..], needle)
      case Some(i) =>
        assert OccursAt(hay, needle, i + 1);
        Some(i + 1)
      case None => None
  }

  /** An occurrence past position 0 is an occurrence in the tail. */
  lemma OccursInTail(hay: string, needle: string)
    requires hay != []
    ensures forall i: nat :: 1 <= i ==> (OccursAt(hay, needle, i) <==> OccursAt(hay[1..], needle, i - 1))
  {
    forall i: nat | 1 <= i
      ensures OccursAt(hay, needle, i) <==> OccursAt(hay[1..], needle, i - 1)
    {
      if i + |needle| <= |hay| {
        assert hay[i..i + |needle|] == hay[1..][i - 1..i - 1 + |needle|];
      }
    }
  }

  /** The test of get_platform_matching: pname.find(s) != npos. */
  predicate NameMatches(p: Platform, s: string) {
    Find(p.name, s).Some?
  }

  /** Platform i is the first whose name contains s. */
  ghost predicate IsFirstMatch(platforms: seq<Platform>, s: string, i: int)
    requires 0 <= i < |platforms|
  {
    && Contains(platforms[i].name, s)
    && forall j :: 0 <= j < i ==> !Contains(platforms[j].name, s)
  }

  /**
   * get_platform_matching: the first platform, in enumeration order, whose
   * name contains s. When some platforms are enumerated but none matches,
   * the source falls off the end of the function without returning, which is
   * undefined; callers must not do that.
   */
  method GetPlatformMatching(enumerated: seq<Platform>, s: string) returns (r: Result<Platform>)
    requires enumerated == [] || exists i :: 0 <= i < |enumerated| && Contains(enumerated[i].name, s)
    ensures r.Err? <==> enumerated == []
    ensures r.Err? ==> r.error == NoPlatformFound
    ensures r.Ok? ==> exists i :: 0 <= i < |enumerated| && r.value == enumerated[i] && IsFirstMatch(enumerated, s, i)
  {
    var platforms :- GetPlatforms(enumerated);
    var i := 0;
    while !NameMatches(platforms[i], s)
      invariant 0 <= i < |platforms|
      invariant forall j :: 0 <= j < i ==> !Contains(platforms[j].name, s)
      invariant exists j :: i <= j < |platforms| && Contains(platforms[j].name, s)
      decreases |platforms| - i
    {
      i := i + 1;
    }
    assert IsFirstMatch(enumerated, s, i);
    return Ok(platforms[i]);
  }

  /** get_default_gpu: the first GPU of the platform. */
  function GetDefaultGpu(p: Platform): (d: Device)
    requires p.gpus != []
    ensures d in p.gpus && d == p.gpus[0]
  {
    Devices(p, Gpu)[0]
  }

  /** get_default_cpu: the first CPU of the platform. */
  function GetDefaultCpu(p: Platform): (d: Device)
    requires p.cpus != []
    ensures d in p.cpus && d == p.cpus[0]
  {
    Devices(p, Cpu)[0]
  }

  /** get_default_device: the default device is the first GPU, as for get_default_gpu. */
  function GetDefaultDevice(p: Platform): (d: Device)
    requires p.gpus != []
    ensures d in p.gpus && d == p.gpus[0]
  {
    Devices(p, Gpu)[0]
  }

  /**
   * The search both compile_file_with_default_cpu and
   * compile_file_with_default_gpu run: the index of the first platform with a
   * device of type t, or |platforms| when there is none.
   */
  method FirstPlatformWith(platforms: seq<Platform>, t: DeviceType) returns (i: nat)
    ensures i <= |platforms|
    ensures i < |platforms| ==> Devices(platforms[i], t) != []
    ensures forall j :: 0 <= j < i ==> Devices(platforms[j], t) == []
  {
    i := 0;
    while i < |platforms|
      invariant i <= |platforms|
      invariant forall j :: 0 <= j < i ==> Devices(platforms[j], t) == []
    {
      if |Devices(platforms[i], t)| > 0 {
        return;
      }
      i := i + 1;
    }
  }
}
