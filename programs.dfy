/**
 * Reading kernel source, making and building a program, and the compile_*
 * helpers that combine them with platform and device selection
 * (oclhelpers.cpp). The file system is a map from file names to contents;
 * the native build is a given function from program and device to the
 * status and build log the runtime reports.
 */
module Programs {

  import opened Exceptions
  import opened Platforms

  /** A context over a list of devices (cl::Context({device})). */
  datatype Context = Context(devices: seq<Device>)

  /** A program made from source code in a context. */
  datatype Program = Program(context: Context, source: string)

  /** What the native build reports: a status and the build log. */
  datatype BuildReport = BuildReport(status: int, log: string)

  /** The tuple (platform, device, context, program) the compile helpers return. */
  datatype Compiled = Compiled(platform: Platform, device: Device, context: Context, program: Program)

  type FileSystem = map<string, string>

  /** The native cl::Program::build together with getBuildInfo<CL_PROGRAM_BUILD_LOG>. */
  type Builder = (Program, Device) -> BuildReport

  const KernelCodeEmpty: OclHelpersException := OclHelpersException("Kernel code is empty!")
  const NoCpuFound: OclHelpersException := OclHelpersException("No cpu found!")
  const NoGpuFound: OclHelpersException := OclHelpersException("No gpu found!")
  const BuildFailedPrefix: string := "Building failed: "

  /** CL_SUCCESS. */
  const Success: int := 0

  /**
   * read_kernel_from_file: the whole file; a file that cannot be opened
   * reads as the empty string, without an error.
   */
  function ReadKernelFromFile(files: FileSystem, filename: string): (contents: string)
    ensures filename in files ==> contents == files[filename]
    ensures filename !in files ==> contents == ""
  {
    if filename in files then files[filename] else ""
  }

  /**
   * make_program_from_file: a program over the file's contents, or an
   * exception when they are empty (so also when the file is missing).
   */
  function MakeProgramFromFile(ctx: Context, files: FileSystem, filename: string): (r: Result<Program>)
    ensures r.Err? <==> ReadKernelFromFile(files, filename) == ""
    ensures r.Err? ==> r.error == KernelCodeEmpty
    ensures filename !in files ==> r == Err(KernelCodeEmpty)
    ensures r.Ok? ==> r.value == Program(ctx, files[filename]) && r.value.source != ""
  {
    var kernelCode := ReadKernelFromFile(files, filename);
    if kernelCode == [] then Err(KernelCodeEmpty) else Ok(Program(ctx, kernelCode))
  }

  /** Recovers the build log from a build-failure message. */
  function BuildLogOf(message: string): string {
    if |message| > |BuildFailedPrefix| then message[|BuildFailedPrefix|..|message| - 1] else ""
  }

  /**
   * build: passes when the native build reports CL_SUCCESS; otherwise throws
   * "Building failed: " followed by the build log and the newline of
   * std::endl.
   */
  function Build(program: Program, device: Device, builder: Builder): (r: Outcome)
    ensures r.Pass? <==> builder(program, device).status == Success
    ensures r.Fail? ==> && |r.error.what| > |BuildFailedPrefix|
                        && r.error.what[..|BuildFailedPrefix|] == BuildFailedPrefix
                        && r.error.what[|r.error.what| - 1] == '\n'
                        && BuildLogOf(r.error.what) == builder(program, device).log
  {
    var report := builder(program, device);
    if report.status != Success then
      var message := BuildFailedPrefix + report.log + "\n";
      assert message[|BuildFailedPrefix|..|message| - 1] == report.log;
      Fail(OclHelpersException(message))
    else
      Pass
  }

  /**
   * compile_file_with: a context over the one device, the program made from
   * the file in it, built for the device. An empty file fails before the
   * build is attempted.
   */
  function CompileFileWith(files: FileSystem, filename: string, platform: Platform, device: Device,
                           builder: Builder): (r: Result<Compiled>)
    ensures var source := ReadKernelFromFile(files, filename);
      var program := Program(Context([device]), source);
      && (source == "" ==> r == Err(KernelCodeEmpty))
      && (r.Ok? <==> source != "" && builder(program, device).status == Success)
      && (r.Ok? ==> r.value == Compiled(platform, device, Context([device]), program))
      && (r.Err? && source != "" ==> Build(program, device, builder) == Fail(r.error))
  {
    var ctx := Context([device]);
    var program :- MakeProgramFromFile(ctx, files, filename);
    var built := Build(program, device, builder);
    if built.Fail? then Err(built.error) else Ok(Compiled(platform, device, ctx, program))
  }

  /**
   * compile_file_with_defaults: the first platform and its default device
   * (its first GPU). The source indexes the GPU list without a check, so a
   * first platform without GPUs is excluded.
   */
  function CompileFileWithDefaults(enumerated: seq<Platform>, files: FileSystem, filename: string,
                                   builder: Builder): (r: Result<Compiled>)
    requires enumerated == [] || enumerated[0].gpus != []
    ensures enumerated == [] ==> r == Err(NoPlatformFound)
    ensures enumerated != [] ==>
      r == CompileFileWith(files, filename, enumerated[0], enumerated[0].gpus[0], builder)
  {
    var platform :- GetDefaultPlatform(enumerated);
    var device := GetDefaultDevice(platform);
    CompileFileWith(files, filename, platform, device, builder)
  }

  /** compile_file_with_default_cpu(platform, filename): the platform's first CPU. */
  function CompileFileWithDefaultCpuOn(platform: Platform, files: FileSystem, filename: string,
                                       builder: Builder): (r: Result<Compiled>)
    requires platform.cpus != []
    ensures r.Ok? ==> r.value.platform == platform && r.value.device == platform.cpus[0]
    ensures r == CompileFileWith(files, filename, platform, platform.cpus[0], builder)
  {
    CompileFileWith(files, filename, platform, GetDefaultCpu(platform), builder)
  }

  /** compile_file_with_default_gpu(platform, filename): the platform's first GPU. */
  function CompileFileWithDefaultGpuOn(platform: Platform, files: FileSystem, filename: string,
                                       builder: Builder): (r: Result<Compiled>)
    requires platform.gpus != []
    ensures r.Ok? ==> r.value.platform == platform && r.value.device == platform.gpus[0]
    ensures r == CompileFileWith(files, filename, platform, platform.gpus[0], builder)
  {
    CompileFileWith(files, filename, platform, GetDefaultGpu(platform), builder)
  }

  /** Platform i is the first with a device of type t. */
  ghost predicate IsFirstWith(platforms: seq<Platform>, t: DeviceType, i: int)
    requires 0 <= i < |platforms|
  {
    Devices(platforms[i], t) != [] && forall j :: 0 <= j < i ==> Devices(platforms[j], t) == []
  }

  /**
   * The shared body of the no-platform compile_file_with_default_cpu and
   * compile_file_with_default_gpu: no platforms throws "No platform found!";
   * otherwise the first platform with a device of type t is compiled for
   * with its first such device; if there is none, `none` is thrown.
   */
  method CompileFileWithFirst(t: DeviceType, none: OclHelpersException, enumerated: seq<Platform>,
                              files: FileSystem, filename: string, builder: Builder)
    returns (r: Result<Compiled>)
    ensures enumerated == [] ==> r == Err(NoPlatformFound)
    ensures enumerated != [] && (forall i :: 0 <= i < |enumerated| ==> Devices(enumerated[i], t) == [])
      ==> r == Err(none)
    ensures forall i :: 0 <= i < |enumerated| && IsFirstWith(enumerated, t, i) ==>
      r == CompileFileWith(files, filename, enumerated[i], Devices(enumerated[i], t)[0], builder)
  {
    var platforms :- GetPlatforms(enumerated);
    var i := FirstPlatformWith(platforms, t);
    if i == |platforms| {
      return Err(none);
    }
    assert IsFirstWith(platforms, t, i);
    r := CompileFileWith(files, filename, platforms[i], Devices(platforms[i], t)[0], builder);
  }

  /** compile_file_with_default_cpu(filename): the first platform that has a CPU. */
  method CompileFileWithDefaultCpu(enumerated: seq<Platform>, files: FileSystem, filename: string,
                                   builder: Builder)
    returns (r: Result<Compiled>)
    ensures enumerated == [] ==> r == Err(NoPlatformFound)
    ensures enumerated != [] && (forall i :: 0 <= i < |enumerated| ==> enumerated[i].cpus == [])
      ==> r == Err(NoCpuFound)
    ensures forall i :: 0 <= i < |enumerated| && IsFirstWith(enumerated, Cpu, i) ==>
      r == CompileFileWithDefaultCpuOn(enumerated[i], files, filename, builder)
  {
    r := CompileFileWithFirst(Cpu, NoCpuFound, enumerated, files, filename, builder);
  }

  /** compile_file_with_default_gpu(filename): the first platform that has a GPU. */
  method CompileFileWithDefaultGpu(enumerated: seq<Platform>, files: FileSystem, filename: string,
                                   builder: Builder)
    returns (r: Result<Compiled>)
    ensures enumerated == [] ==> r == Err(NoPlatformFound)
    ensures enumerated != [] && (forall i :: 0 <= i < |enumerated| ==> enumerated[i].gpus == [])
      ==> r == Err(NoGpuFound)
    ensures forall i :: 0 <= i < |enumerated| && IsFirstWith(enumerated, Gpu, i) ==>
      r == CompileFileWithDefaultGpuOn(enumerated[i], files, filename, builder)
  {
    r := CompileFileWithFirst(Gpu, NoGpuFound, enumerated, files, filename, builder);
  }
}
