/**
 * get_error_string (oclhelpers.cpp): the name of an OpenCL status code, as
 * listed in the OpenCL 1.2 header cl.h and, for -1000 .. -1005, in the KHR
 * extension headers (cl_gl.h, cl_ext.h, cl_d3d10.h), or a fixed default for
 * every other integer.
 */
module ErrorCodes {

  import opened Wrappers

  /** The string returned for every code the table does not name. */
  const Unknown: string := "Unknown OpenCL error"

  /**
   * The codes the table names: the run-time and JIT compiler errors 0 .. -19,
   * the compile-time errors -30 .. -68 and the extension errors -1000 .. -1005.
   * The gaps -20 .. -29 and -69 .. -999 are not named.
   */
  predicate Recognised(code: int) {
    || -19 <= code <= 0
    || -68 <= code <= -30
    || -1005 <= code <= -1000
  }

  /**
   * The lookup. The source is one switch with a default; here its three
   * commented sections are three matches, each with the same default, which
   * maps every int to the same string.
   */
  function ErrorString(error: int): (name: string)
    ensures !Recognised(error) ==> name == Unknown
  {
    if -19 <= error <= 0 then RunTimeErrorString(error)
    else if -68 <= error <= -30 then CompileTimeErrorString(error)
    else ExtensionErrorString(error)
  }

  /** Section "run-time and JIT compiler errors" of the switch. */
  function RunTimeErrorString(error: int): string
  {
    match error
    case 0 => "CL_SUCCESS"
    case -1 => "CL_DEVICE_NOT_FOUND"
    case -2 => "CL_DEVICE_NOT_AVAILABLE"
    case -3 => "CL_COMPILER_NOT_AVAILABLE"
    case -4 => "CL_MEM_OBJECT_ALLOCATION_FAILURE"
    case -5 => "CL_OUT_OF_RESOURCES"
    case -6 => "CL_OUT_OF_HOST_MEMORY"
    case -7 => "CL_PROFILING_INFO_NOT_AVAILABLE"
    case -8 => "CL_MEM_COPY_OVERLAP"
    case -9 => "CL_IMAGE_FORMAT_MISMATCH"
    case -10 => "CL_IMAGE_FORMAT_NOT_SUPPORTED"
    case -11 => "CL_BUILD_PROGRAM_FAILURE"
    case -12 => "CL_MAP_FAILURE"
    case -13 => "CL_MISALIGNED_SUB_BUFFER_OFFSET"
    case -14 => "CL_EXEC_STATUS_ERROR_FOR_EVENTS_IN_WAIT_LIST"
    case -15 => "CL_COMPILE_PROGRAM_FAILURE"
    case -16 => "CL_LINKER_NOT_AVAILABLE"
    case -17 => "CL_LINK_PROGRAM_FAILURE"
    case -18 => "CL_DEVICE_PARTITION_FAILED"
    case -19 => "CL_KERNEL_ARG_INFO_NOT_AVAILABLE"
    case _ => Unknown
  }

  /** Section "compile-time errors" of the switch. */
  function CompileTimeErrorString(error: int): string
  {
    match error
    case -30 => "CL_INVALID_VALUE"
    case -31 => "CL_INVALID_DEVICE_TYPE"
    case -32 => "CL_INVALID_PLATFORM"
    case -33 => "CL_INVALID_DEVICE"
    case -34 => "CL_INVALID_CONTEXT"
    case -35 => "CL_INVALID_QUEUE_PROPERTIES"
    case -36 => "CL_INVALID_COMMAND_QUEUE"
    case -37 => "CL_INVALID_HOST_PTR"
    case -38 => "CL_INVALID_MEM_OBJECT"
    case -39 => "CL_INVALID_IMAGE_FORMAT_DESCRIPTOR"
    case -40 => "CL_INVALID_IMAGE_SIZE"
    case -41 => "CL_INVALID_SAMPLER"
    case -42 => "CL_INVALID_BINARY"
    case -43 => "CL_INVALID_BUILD_OPTIONS"
    case -44 => "CL_INVALID_PROGRAM"
    case -45 => "CL_INVALID_PROGRAM_EXECUTABLE"
    case -46 => "CL_INVALID_KERNEL_NAME"
    case -47 => "CL_INVALID_KERNEL_DEFINITION"
    case -48 => "CL_INVALID_KERNEL"
    case -49 => "CL_INVALID_ARG_INDEX"
    case -50 => "CL_INVALID_ARG_VALUE"
    case -51 => "CL_INVALID_ARG_SIZE"
    case -52 => "CL_INVALID_KERNEL_ARGS"
    case -53 => "CL_INVALID_WORK_DIMENSION"
    case -54 => "CL_INVALID_WORK_GROUP_SIZE"
    case -55 => "CL_INVALID_WORK_ITEM_SIZE"
    case -56 => "CL_INVALID_GLOBAL_OFFSET"
    case -57 => "CL_INVALID_EVENT_WAIT_LIST"
    case -58 => "CL_INVALID_EVENT"
    case -59 => "CL_INVALID_OPERATION"
    case -60 => "CL_INVALID_GL_OBJECT"
    case -61 => "CL_INVALID_BUFFER_SIZE"
    case -62 => "CL_INVALID_MIP_LEVEL"
    case -63 => "CL_INVALID_GLOBAL_WORK_SIZE"
    case -64 => "CL_INVALID_PROPERTY"
    case -65 => "CL_INVALID_IMAGE_DESCRIPTOR"
    case -66 => "CL_INVALID_COMPILER_OPTIONS"
    case -67 => "CL_INVALID_LINKER_OPTIONS"
    case -68 => "CL_INVALID_DEVICE_PARTITION_COUNT"
    case _ => Unknown
  }

  /** Section "extension errors" of the switch. */
  function ExtensionErrorString(error: int): string
  {
    match error
    case -1000 => "CL_INVALID_GL_SHAREGROUP_REFERENCE_KHR"
    case -1001 => "CL_PLATFORM_NOT_FOUND_KHR"
    case -1002 => "CL_INVALID_D3D10_DEVICE_KHR"
    case -1003 => "CL_INVALID_D3D10_RESOURCE_KHR"
    case -1004 => "CL_D3D10_RESOURCE_ALREADY_ACQUIRED_KHR"
    case -1005 => "CL_D3D10_RESOURCE_NOT_ACQUIRED_KHR"
    case _ => Unknown
  }

  /**
   * The reverse lookup: the code a name belongs to, if any. It first
   * dispatches on the length of the name, so that each name is compared only
   * with the few names of the same length.
   */
  ghost function CodeNamed(name: string): (code: Option<int>)
  {
    match |name|
    case 10 =>
      if name == "CL_SUCCESS" then Some(0)
      else None
    case 14 =>
      if name == "CL_MAP_FAILURE" then Some(-12)
      else None
    case 16 =>
      if name == "CL_INVALID_VALUE" then Some(-30)
      else if name == "CL_INVALID_EVENT" then Some(-58)
      else None
    case 17 =>
      if name == "CL_INVALID_DEVICE" then Some(-33)
      else if name == "CL_INVALID_BINARY" then Some(-42)
      else if name == "CL_INVALID_KERNEL" then Some(-48)
      else None
    case 18 =>
      if name == "CL_INVALID_CONTEXT" then Some(-34)
      else if name == "CL_INVALID_SAMPLER" then Some(-41)
      else if name == "CL_INVALID_PROGRAM" then Some(-44)
      else None
    case 19 =>
      if name == "CL_DEVICE_NOT_FOUND" then Some(-1)
      else if name == "CL_OUT_OF_RESOURCES" then Some(-5)
      else if name == "CL_MEM_COPY_OVERLAP" then Some(-8)
      else if name == "CL_INVALID_PLATFORM" then Some(-32)
      else if name == "CL_INVALID_HOST_PTR" then Some(-37)
      else if name == "CL_INVALID_ARG_SIZE" then Some(-51)
      else if name == "CL_INVALID_PROPERTY" then Some(-64)
      else None
    case 20 =>
      if name == "CL_INVALID_ARG_INDEX" then Some(-49)
      else if name == "CL_INVALID_ARG_VALUE" then Some(-50)
      else if name == "CL_INVALID_OPERATION" then Some(-59)
      else if name == "CL_INVALID_GL_OBJECT" then Some(-60)
      else if name == "CL_INVALID_MIP_LEVEL" then Some(-62)
      else None
    case 21 =>
      if name == "CL_OUT_OF_HOST_MEMORY" then Some(-6)
      else if name == "CL_INVALID_MEM_OBJECT" then Some(-38)
      else if name == "CL_INVALID_IMAGE_SIZE" then Some(-40)
      else None
    case 22 =>
      if name == "CL_INVALID_DEVICE_TYPE" then Some(-31)
      else if name == "CL_INVALID_KERNEL_NAME" then Some(-46)
      else if name == "CL_INVALID_KERNEL_ARGS" then Some(-52)
      else if name == "CL_INVALID_BUFFER_SIZE" then Some(-61)
      else None
    case 23 =>
      if name == "CL_DEVICE_NOT_AVAILABLE" then Some(-2)
      else if name == "CL_LINKER_NOT_AVAILABLE" then Some(-16)
      else if name == "CL_LINK_PROGRAM_FAILURE" then Some(-17)
      else None
    case 24 =>
      if name == "CL_IMAGE_FORMAT_MISMATCH" then Some(-9)
      else if name == "CL_BUILD_PROGRAM_FAILURE" then Some(-11)
      else if name == "CL_INVALID_COMMAND_QUEUE" then Some(-36)
      else if name == "CL_INVALID_BUILD_OPTIONS" then Some(-43)
      else if name == "CL_INVALID_GLOBAL_OFFSET" then Some(-56)
      else None
    case 25 =>
      if name == "CL_COMPILER_NOT_AVAILABLE" then Some(-3)
      else if name == "CL_INVALID_WORK_DIMENSION" then Some(-53)
      else if name == "CL_INVALID_WORK_ITEM_SIZE" then Some(-55)
      else if name == "CL_INVALID_LINKER_OPTIONS" then Some(-67)
      else if name == "CL_PLATFORM_NOT_FOUND_KHR" then Some(-1001)
      else None
    case 26 =>
      if name == "CL_COMPILE_PROGRAM_FAILURE" then Some(-15)
      else if name == "CL_DEVICE_PARTITION_FAILED" then Some(-18)
      else if name == "CL_INVALID_WORK_GROUP_SIZE" then Some(-54)
      else if name == "CL_INVALID_EVENT_WAIT_LIST" then Some(-57)
      else None
    case 27 =>
      if name == "CL_INVALID_QUEUE_PROPERTIES" then Some(-35)
      else if name == "CL_INVALID_GLOBAL_WORK_SIZE" then Some(-63)
      else if name == "CL_INVALID_IMAGE_DESCRIPTOR" then Some(-65)
      else if name == "CL_INVALID_COMPILER_OPTIONS" then Some(-66)
      else if name == "CL_INVALID_D3D10_DEVICE_KHR" then Some(-1002)
      else None
    case 28 =>
      if name == "CL_INVALID_KERNEL_DEFINITION" then Some(-47)
      else None
    case 29 =>
      if name == "CL_IMAGE_FORMAT_NOT_SUPPORTED" then Some(-10)
      else if name == "CL_INVALID_PROGRAM_EXECUTABLE" then Some(-45)
      else if name == "CL_INVALID_D3D10_RESOURCE_KHR" then Some(-1003)
      else None
    case 31 =>
      if name == "CL_PROFILING_INFO_NOT_AVAILABLE" then Some(-7)
      else if name == "CL_MISALIGNED_SUB_BUFFER_OFFSET" then Some(-13)
      else None
    case 32 =>
      if name == "CL_MEM_OBJECT_ALLOCATION_FAILURE" then Some(-4)
      else if name == "CL_KERNEL_ARG_INFO_NOT_AVAILABLE" then Some(-19)
      else None
    case 33 =>
      if name == "CL_INVALID_DEVICE_PARTITION_COUNT" then Some(-68)
      else None
    case 34 =>
      if name == "CL_INVALID_IMAGE_FORMAT_DESCRIPTOR" then Some(-39)
      else if name == "CL_D3D10_RESOURCE_NOT_ACQUIRED_KHR" then Some(-1005)
      else None
    case 38 =>
      if name == "CL_INVALID_GL_SHAREGROUP_REFERENCE_KHR" then Some(-1000)
      else if name == "CL_D3D10_RESOURCE_ALREADY_ACQUIRED_KHR" then Some(-1004)
      else None
    case 44 =>
      if name == "CL_EXEC_STATUS_ERROR_FOR_EVENTS_IN_WAIT_LIST" then Some(-14)
      else None
    case _ => None
  }

  /*
   * The lemmas RoundTrip0To4 .. RoundTrip1003To1005 establish, five or fewer
   * codes at a time, that the reverse lookup recovers each named code from its
   * name. Each case first evaluates the table at that code.
   */
  lemma RoundTrip0To4(code: int)
    requires -4 <= code <= 0
    ensures CodeNamed(ErrorString(code)) == Some(code)
  {
    if code == 0 {
      assert ErrorString(code) == "CL_SUCCESS";
    } else if code == -1 {
      assert ErrorString(code) == "CL_DEVICE_NOT_FOUND";
    } else if code == -2 {
      assert ErrorString(code) == "CL_DEVICE_NOT_AVAILABLE";
    } else if code == -3 {
      assert ErrorString(code) == "CL_COMPILER_NOT_AVAILABLE";
    } else {
      assert ErrorString(code) == "CL_MEM_OBJECT_ALLOCATION_FAILURE";
    }
  }

  lemma RoundTrip5To9(code: int)
    requires -9 <= code <= -5
    ensures CodeNamed(ErrorString(code)) == Some(code)
  {
    if code == -5 {
      assert ErrorString(code) == "CL_OUT_OF_RESOURCES";
    } else if code == -6 {
      assert ErrorString(code) == "CL_OUT_OF_HOST_MEMORY";
    } else if code == -7 {
      assert ErrorString(code) == "CL_PROFILING_INFO_NOT_AVAILABLE";
    } else if code == -8 {
      assert ErrorString(code) == "CL_MEM_COPY_OVERLAP";
    } else {
      assert ErrorString(code) == "CL_IMAGE_FORMAT_MISMATCH";
    }
  }

  lemma RoundTrip10To14(code: int)
    requires -14 <= code <= -10
    ensures CodeNamed(ErrorString(code)) == Some(code)
  {
    if code == -10 {
      assert ErrorString(code) == "CL_IMAGE_FORMAT_NOT_SUPPORTED";
    } else if code == -11 {
      assert ErrorString(code) == "CL_BUILD_PROGRAM_FAILURE";
    } else if code == -12 {
      assert ErrorString(code) == "CL_MAP_FAILURE";
    } else if code == -13 {
      assert ErrorString(code) == "CL_MISALIGNED_SUB_BUFFER_OFFSET";
    } else {
      assert ErrorString(code) == "CL_EXEC_STATUS_ERROR_FOR_EVENTS_IN_WAIT_LIST";
    }
  }

  lemma RoundTrip15To19(code: int)
    requires -19 <= code <= -15
    ensures CodeNamed(ErrorString(code)) == Some(code)
  {
    if code == -15 {
      assert ErrorString(code) == "CL_COMPILE_PROGRAM_FAILURE";
    } else if code == -16 {
      assert ErrorString(code) == "CL_LINKER_NOT_AVAILABLE";
    } else if code == -17 {
      assert ErrorString(code) == "CL_LINK_PROGRAM_FAILURE";
    } else if code == -18 {
      assert ErrorString(code) == "CL_DEVICE_PARTITION_FAILED";
    } else {
      assert ErrorString(code) == "CL_KERNEL_ARG_INFO_NOT_AVAILABLE";
    }
  }

  lemma RoundTrip30To34(code: int)
    requires -34 <= code <= -30
    ensures CodeNamed(ErrorString(code)) == Some(code)
  {
    if code == -30 {
      assert ErrorString(code) == "CL_INVALID_VALUE";
    } else if code == -31 {
      assert ErrorString(code) == "CL_INVALID_DEVICE_TYPE";
    } else if code == -32 {
      assert ErrorString(code) == "CL_INVALID_PLATFORM";
    } else if code == -33 {
      assert ErrorString(code) == "CL_INVALID_DEVICE";
    } else {
      assert ErrorString(code) == "CL_INVALID_CONTEXT";
    }
  }

  lemma RoundTrip35To39(code: int)
    requires -39 <= code <= -35
    ensures CodeNamed(ErrorString(code)) == Some(code)
  {
    if code == -35 {
      assert ErrorString(code) == "CL_INVALID_QUEUE_PROPERTIES";
    } else if code == -36 {
      assert ErrorString(code) == "CL_INVALID_COMMAND_QUEUE";
    } else if code == -37 {
      assert ErrorString(code) == "CL_INVALID_HOST_PTR";
    } else if code == -38 {
      assert ErrorString(code) == "CL_INVALID_MEM_OBJECT";
    } else {
      assert ErrorString(code) == "CL_INVALID_IMAGE_FORMAT_DESCRIPTOR";
    }
  }

  lemma RoundTrip40To44(code: int)
    requires -44 <= code <= -40
    ensures CodeNamed(ErrorString(code)) == Some(code)
  {
    if code == -40 {
      assert ErrorString(code) == "CL_INVALID_IMAGE_SIZE";
    } else if code == -41 {
      assert ErrorString(code) == "CL_INVALID_SAMPLER";
    } else if code == -42 {
      assert ErrorString(code) == "CL_INVALID_BINARY";
    } else if code == -43 {
      assert ErrorString(code) == "CL_INVALID_BUILD_OPTIONS";
    } else {
      assert ErrorString(code) == "CL_INVALID_PROGRAM";
    }
  }

  lemma RoundTrip45To49(code: int)
    requires -49 <= code <= -45
    ensures CodeNamed(ErrorString(code)) == Some(code)
  {
    if code == -45 {
      assert ErrorString(code) == "CL_INVALID_PROGRAM_EXECUTABLE";
    } else if code == -46 {
      assert ErrorString(code) == "CL_INVALID_KERNEL_NAME";
    } else if code == -47 {
      assert ErrorString(code) == "CL_INVALID_KERNEL_DEFINITION";
    } else if code == -48 {
      assert ErrorString(code) == "CL_INVALID_KERNEL";
    } else {
      assert ErrorString(code) == "CL_INVALID_ARG_INDEX";
    }
  }

  lemma RoundTrip50To54(code: int)
    requires -54 <= code <= -50
    ensures CodeNamed(ErrorString(code)) == Some(code)
  {
    if code == -50 {
      assert ErrorString(code) == "CL_INVALID_ARG_VALUE";
    } else if code == -51 {
      assert ErrorString(code) == "CL_INVALID_ARG_SIZE";
    } else if code == -52 {
      assert ErrorString(code) == "CL_INVALID_KERNEL_ARGS";
    } else if code == -53 {
      assert ErrorString(code) == "CL_INVALID_WORK_DIMENSION";
    } else {
      assert ErrorString(code) == "CL_INVALID_WORK_GROUP_SIZE";
    }
  }

  lemma RoundTrip55To59(code: int)
    requires -59 <= code <= -55
    ensures CodeNamed(ErrorString(code)) == Some(code)
  {
    if code == -55 {
      assert ErrorString(code) == "CL_INVALID_WORK_ITEM_SIZE";
    } else if code == -56 {
      assert ErrorString(code) == "CL_INVALID_GLOBAL_OFFSET";
    } else if code == -57 {
      assert ErrorString(code) == "CL_INVALID_EVENT_WAIT_LIST";
    } else if code == -58 {
      assert ErrorString(code) == "CL_INVALID_EVENT";
    } else {
      assert ErrorString(code) == "CL_INVALID_OPERATION";
    }
  }

  lemma RoundTrip60To64(code: int)
    requires -64 <= code <= -60
    ensures CodeNamed(ErrorString(code)) == Some(code)
  {
    if code == -60 {
      assert ErrorString(code) == "CL_INVALID_GL_OBJECT";
    } else if code == -61 {
      assert ErrorString(code) == "CL_INVALID_BUFFER_SIZE";
    } else if code == -62 {
      assert ErrorString(code) == "CL_INVALID_MIP_LEVEL";
    } else if code == -63 {
      assert ErrorString(code) == "CL_INVALID_GLOBAL_WORK_SIZE";
    } else {
      assert ErrorString(code) == "CL_INVALID_PROPERTY";
    }
  }

  lemma RoundTrip65To68(code: int)
    requires -68 <= code <= -65
    ensures CodeNamed(ErrorString(code)) == Some(code)
  {
    if code == -65 {
      assert ErrorString(code) == "CL_INVALID_IMAGE_DESCRIPTOR";
    } else if code == -66 {
      assert ErrorString(code) == "CL_INVALID_COMPILER_OPTIONS";
    } else if code == -67 {
      assert ErrorString(code) == "CL_INVALID_LINKER_OPTIONS";
    } else {
      assert ErrorString(code) == "CL_INVALID_DEVICE_PARTITION_COUNT";
    }
  }

  lemma RoundTrip1000To1002(code: int)
    requires -1002 <= code <= -1000
    ensures CodeNamed(ErrorString(code)) == Some(code)
  {
    if code == -1000 {
      assert ErrorString(code) == "CL_INVALID_GL_SHAREGROUP_REFERENCE_KHR";
    } else if code == -1001 {
      assert ErrorString(code) == "CL_PLATFORM_NOT_FOUND_KHR";
    } else {
      assert ErrorString(code) == "CL_INVALID_D3D10_DEVICE_KHR";
    }
  }

  lemma RoundTrip1003To1005(code: int)
    requires -1005 <= code <= -1003
    ensures CodeNamed(ErrorString(code)) == Some(code)
  {
    if code == -1003 {
      assert ErrorString(code) == "CL_INVALID_D3D10_RESOURCE_KHR";
    } else if code == -1004 {
      assert ErrorString(code) == "CL_D3D10_RESOURCE_ALREADY_ACQUIRED_KHR";
    } else {
      assert ErrorString(code) == "CL_D3D10_RESOURCE_NOT_ACQUIRED_KHR";
    }
  }

  /** Every named code is recovered from its name by the reverse lookup. */
  lemma CodeNamedErrorString(code: int)
    requires Recognised(code)
    ensures CodeNamed(ErrorString(code)) == Some(code)
  {
    if -4 <= code <= 0 {
      RoundTrip0To4(code);
    } else if -9 <= code <= -5 {
      RoundTrip5To9(code);
    } else if -14 <= code <= -10 {
      RoundTrip10To14(code);
    } else if -19 <= code <= -15 {
      RoundTrip15To19(code);
    } else if -34 <= code <= -30 {
      RoundTrip30To34(code);
    } else if -39 <= code <= -35 {
      RoundTrip35To39(code);
    } else if -44 <= code <= -40 {
      RoundTrip40To44(code);
    } else if -49 <= code <= -45 {
      RoundTrip45To49(code);
    } else if -54 <= code <= -50 {
      RoundTrip50To54(code);
    } else if -59 <= code <= -55 {
      RoundTrip55To59(code);
    } else if -64 <= code <= -60 {
      RoundTrip60To64(code);
    } else if -68 <= code <= -65 {
      RoundTrip65To68(code);
    } else if -1002 <= code <= -1000 {
      RoundTrip1000To1002(code);
    } else {
      RoundTrip1003To1005(code);
    }
  }

  /** Distinct named codes have distinct names. */
  lemma ErrorStringInjective(a: int, b: int)
    requires Recognised(a) && Recognised(b)
    ensures ErrorString(a) == ErrorString(b) <==> a == b
  {
    CodeNamedErrorString(a);
    CodeNamedErrorString(b);
  }

  /**
   * No name in the table equals the default string, so the result is the
   * default exactly for the codes the table does not name.
   */
  lemma ErrorStringIsUnknownIffUnrecognised(code: int)
    ensures ErrorString(code) == Unknown <==> !Recognised(code)
  {
    if Recognised(code) {
      CodeNamedErrorString(code);
      assert CodeNamed(Unknown) == None;
    }
  }

  /** A few entries of the table, and codes in its gaps. */
  lemma ErrorStringExamples()
    ensures ErrorString(0) == "CL_SUCCESS"
    ensures ErrorString(-11) == "CL_BUILD_PROGRAM_FAILURE"
    ensures ErrorString(-20) == Unknown && ErrorString(-29) == Unknown
    ensures ErrorString(-69) == Unknown && ErrorString(-999) == Unknown
    ensures ErrorString(1) == Unknown && ErrorString(-1006) == Unknown
  {
  }
}
