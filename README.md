# oclhelpers: a verified model of the helper layer

oclhelpers is a small C++ convenience layer over the OpenCL C++ bindings. It
enumerates platforms and devices, picks a default platform, a platform by name,
or the first platform with a CPU or a GPU. It reads kernel source from a file,
makes and builds a program, and binds kernel arguments by position. It also
turns OpenCL status codes into their names and checks native calls with the
`OCL_SAFE_CALL` macro. Every failure is thrown as the one exception type
`OCLHelpersException`, which carries a message string.

This project models that decision logic in Dafny and proves its properties.
The native runtime is plain data:

- the platforms `cl::Platform::get` enumerates are a `seq<Platform>`, each with
  a name and its CPU and GPU lists;
- the file system is a `map<string, string>`;
- the native build is a given function from program and device to a status
  and a build log;
- status codes are integers. `OCL_SAFE_CALL` statuses are 32-bit (`Int32`).

A thrown exception is an `Err`/`Fail` value that carries an
`OclHelpersException(what)`.

Modules, one per component:

- `Wrappers` (wrappers.dfy): `Option`.
- `Exceptions` (exceptions.dfy): `OclHelpersException`, `Result`, `Outcome`.
- `ErrorCodes` (error_codes.dfy): `get_error_string`. The source's single
  switch is written as three matches, one per commented section of the switch
  (run-time, compile-time, extension), each with the same default. This gives
  the same string for every int and keeps each proof small. A ghost reverse
  lookup, `CodeNamed`, proves that the names are distinct.
- `NumberFormat` (number_format.dfy): how `std::hex` and `std::dec` render a
  non-negative integer (lower case, no prefix, no leading zeros), plus a
  reader for that rendering.
- `SafeCall` (safe_call.dfy): `OCL_SAFE_CALL` and the message it composes.
- `Platforms` (platforms.dfy): `get_platforms`, `get_default_platform`,
  `std::string::find`, `get_platform_matching`, `get_devices` with `get_cpus`
  and `get_gpus` (one function, `Devices`, over the device type), and the
  default-device functions.
- `Programs` (programs.dfy): `read_kernel_from_file`,
  `make_program_from_file`, `build`, and the `compile_file_with*` family.
- `KernelArgs` (kernel_args.dfy): a `Kernel` class whose argument table is a
  map updated in place. `_set_args` is a recursive method, like the variadic
  template recursion, and `set_args` starts it at slot 0.

## Model

| member | source | states |
|---|---|---|
| `ErrorCodes.ErrorString` | oclhelpers.cpp:126-268 | total on int; every code outside 0..-19, -30..-68, -1000..-1005 yields "Unknown OpenCL error" |
| `ErrorCodes.CodeNamedErrorString` | oclhelpers.cpp:130-264 | every recognised code is recovered from its name by the reverse lookup (proved section by section, at most five cases per step, in the RoundTrip lemmas) |
| `ErrorCodes.ErrorStringInjective` | oclhelpers.cpp:131-264 | two recognised codes have the same name iff they are equal |
| `ErrorCodes.ErrorStringIsUnknownIffUnrecognised` | oclhelpers.cpp:129-266 | the result is the default string iff the code is not one of the named codes (no name equals the default) |
| `ErrorCodes.ErrorStringExamples` | oclhelpers.cpp:131-266 | 0 gives "CL_SUCCESS", -11 gives "CL_BUILD_PROGRAM_FAILURE"; -20, -29, -69, -999, 1 and -1006 give the default |
| `NumberFormat.ToDigits` | oclhelpers.hpp:13-15 | the rendering is non-empty, made of radix digits, and starts with '0' exactly when the number is 0 (no leading zeros) |
| `NumberFormat.FromToHexDigits` | oclhelpers.hpp:13 | reading a hexadecimal rendering back gives the number rendered |
| `NumberFormat.FromToDecDigits` | oclhelpers.hpp:15 | reading a decimal rendering (the line number) back gives the number rendered |
| `NumberFormat.LeadingDigitsOfConcat` | oclhelpers.hpp:13 | the hex field is cut exactly at the space that follows it |
| `SafeCall.Unsigned32` | oclhelpers.hpp:13 | the value printed for a status is its 32-bit two's-complement pattern, below 2^32, congruent to it, and it converts back to the status |
| `SafeCall.SafeCall` | oclhelpers.hpp:8-18 | passes with no effect iff the status is zero; otherwise throws an OclHelpersException carrying the composed message |
| `SafeCall.ComposeLayout` | oclhelpers.hpp:13-15 | a message is the prefix, the hex field, " (", the name and ")" at the stated positions |
| `SafeCall.FailureMessageLayout` | oclhelpers.hpp:13-14 | a thrown message begins "OpenCL error: ", then the status in hexadecimal, then " (" + get_error_string(status) + ")" |
| `SafeCall.StatusOfComposed` | oclhelpers.hpp:13-15 | the status is read back from any composed message, whatever the name, file and line |
| `SafeCall.StatusOfFailureMessage` | oclhelpers.hpp:13-16 | the thrown message determines the status it reports |
| `SafeCall.FailureMessageInjective` | oclhelpers.hpp:13-16 | at one expansion site, two statuses give the same message iff they are equal |
| `Platforms.Devices` | oclhelpers.cpp:28-40 | get_devices, get_cpus and get_gpus: the CPU or GPU list the platform reports (the native getDevices result, given as data) |
| `Platforms.GetPlatforms` | oclhelpers.cpp:8-15 | throws "No platform found!" iff the enumerated list is empty, otherwise returns it unchanged |
| `Platforms.GetDefaultPlatform` | oclhelpers.cpp:26 | element 0 of the enumerated list, or "No platform found!" iff it is empty |
| `Platforms.Find` | oclhelpers.cpp:21 | std::string::find: some position iff the needle occurs, and then the first position where it occurs |
| `Platforms.GetPlatformMatching` | oclhelpers.cpp:17-24 | the first platform in enumeration order whose name contains s; "No platform found!" iff none are enumerated |
| `Platforms.GetDefaultGpu` | oclhelpers.cpp:45 | the platform's first GPU |
| `Platforms.GetDefaultCpu` | oclhelpers.cpp:46 | the platform's first CPU |
| `Platforms.GetDefaultDevice` | oclhelpers.cpp:42 | the default device is the platform's first GPU |
| `Platforms.FirstPlatformWith` | oclhelpers.cpp:92-96 | the index of the first platform with a device of the type, or the list length when no platform has one |
| `Programs.ReadKernelFromFile` | oclhelpers.cpp:48-52 | the file's contents; a missing file reads as "", not as an error |
| `Programs.MakeProgramFromFile` | oclhelpers.cpp:54-62 | throws "Kernel code is empty!" iff the contents are empty (so also for a missing file); otherwise a program over the contents in the context |
| `Programs.Build` | oclhelpers.cpp:64-71 | passes iff the build status is CL_SUCCESS; otherwise the message is "Building failed: ", the build log and a newline |
| `Programs.CompileFileWith` | oclhelpers.cpp:73-80 | succeeds iff the source is non-empty and builds; an empty file fails before the build; on success returns the platform, the device, a context over that device and the program |
| `Programs.CompileFileWithDefaults` | oclhelpers.cpp:82-88 | the first platform with its first GPU, or "No platform found!" |
| `Programs.CompileFileWithDefaultCpuOn` | oclhelpers.cpp:101-106 | compiles for the given platform's first CPU |
| `Programs.CompileFileWithDefaultGpuOn` | oclhelpers.cpp:119-124 | compiles for the given platform's first GPU |
| `Programs.CompileFileWithFirst` | oclhelpers.cpp:90-99 | "No platform found!" on no platforms; the given exception when no platform has a device of the type; otherwise compiles for the first such platform and its first such device |
| `Programs.CompileFileWithDefaultCpu` | oclhelpers.cpp:90-99 | "No platform found!", else "No cpu found!" when no platform has a CPU, else the first platform with a CPU and that CPU |
| `Programs.CompileFileWithDefaultGpu` | oclhelpers.cpp:108-117 | "No platform found!", else "No gpu found!" when no platform has a GPU, else the first platform with a GPU and that GPU |
| `KernelArgs.BoundWrites` | oclhelpers.hpp:72-75 | binding from pos puts argument i in slot pos + i |
| `KernelArgs.BoundKeeps` | oclhelpers.hpp:70-76 | every slot outside pos .. pos + n - 1 keeps what it held, and is present iff it was |
| `KernelArgs.BoundKeys` | oclhelpers.hpp:70-76 | the bound slots are exactly the old slots plus pos .. pos + n - 1 |
| `KernelArgs.CallsLength` | oclhelpers.hpp:70-75 | there are as many setArg calls as arguments |
| `KernelArgs.CallsAt` | oclhelpers.hpp:74-75 | the i-th setArg call sets slot pos + i to argument i |
| `KernelArgs.ReplayCalls` | oclhelpers.hpp:72-75 | replaying the setArg calls in order gives the bound table |
| `KernelArgs.Kernel.SetArg` | oclhelpers.hpp:74 | writes one slot and records one call |
| `KernelArgs.Kernel.SetArgsFrom` | oclhelpers.hpp:69-77 | the table becomes the binding from pos, the calls grow by one call per argument in order, and nothing happens when there are no arguments |
| `KernelArgs.Kernel.SetArgs` | oclhelpers.hpp:79-81 | argument i is in slot i; slots at or above n are unchanged; no arguments leave the kernel unchanged; one call per argument in increasing slot order |

## Left out

- Native OpenCL calls are inputs, not modelled calls. These are
  `cl::Platform::get`, `getInfo<CL_PLATFORM_NAME>`, `getDevices`, the
  `cl::Context` and `cl::Program` constructors, `program.build` and
  `getBuildInfo<CL_PROGRAM_BUILD_LOG>`. Their results are the platform list,
  the data inside each `Platform`, and the `Builder` function. The program a
  build receives is identified by its context and source.
- File reading is I/O: the file system is a map. An unreadable file and a
  missing file are both a missing key, and both read as "".
- `Platforms.GetDefaultGpu`, `Platforms.GetDefaultCpu`, `Platforms.GetDefaultDevice`: indexing `[0]` on an empty device list is undefined behaviour in the source, so these (and `Programs.CompileFileWithDefaults`, `Programs.CompileFileWithDefaultCpuOn`, `Programs.CompileFileWithDefaultGpuOn`) require a non-empty list.
- `Platforms.GetPlatformMatching`: when platforms exist but no name matches, the source reaches the end of a non-void function without returning, which is undefined behaviour; the model requires that some name contains `s` whenever the list is non-empty.
- `SafeCall.SafeCall`: the call expression is evaluated by the caller and its status is the parameter, so "evaluated exactly once" holds by construction and is not a separate statement; `__FILE__` and `__LINE__` are parameters.
- `std::hex` output for a negative `int` is modelled as its 32-bit two's-complement pattern. This is what the GNU C++ library prints, but the C++ standard does not require it.
- Stream flushing by `std::endl` is not modelled. Only its newline character is.
- Kernel arguments of different C++ types are all one `ArgValue`: the bytes
  `setArg` hands the runtime. The status `cl::Kernel::setArg` returns is
  ignored by `_set_args`, and the model always writes the slot. It does not
  reject a slot index that the kernel lacks.
- `_set_args` is modelled by recursion, as in the source, not by a loop.
- make_release_package.py (packaging scripts) and test/test.cpp (needs a real
  device and a kernel file on disk) are not part of this model.
