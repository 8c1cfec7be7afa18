/** The engine registries of PixFu (core/Fu.hpp): the platform's root path for files, and the
    engine's lists of extensions and input devices. Extensions and input devices are engine
    objects handed over by pointer; here each is represented by its identity. */
module Engine {

  /** The identity of a `FuExtension` object. */
  type ExtensionId = nat

  /** The identity of an `InputDevice` object. */
  type InputDeviceId = nat

  /** `FuPlatform`, reduced to its static `ROOTPATH`. */
  class Platform {
    var rootPath: string

    constructor (rootPath0: string)
      ensures rootPath == rootPath0
    {
      rootPath := rootPath0;
    }

    /** `getPath(relpath)`: the root path followed by `relpath`, so the root path is a prefix of
        every path returned and what follows it is exactly `relpath`. */
    function GetPath(relpath: string): (p: string)
      reads this
      ensures |p| == |rootPath| + |relpath|
      ensures p[..|rootPath|] == rootPath && p[|rootPath|..] == relpath
    {
      rootPath + relpath
    }

    /** `setPath(abspath)`: replaces the root path (the debug log line is not modelled). */
    method SetPath(abspath: string)
      modifies this
      ensures rootPath == abspath
    {
      rootPath := abspath;
    }
  }

  /** After `setPath(a)` every relative path resolves under `a`, whatever the root was before. */
  method ResolveAfterSetPath(platform: Platform, a: string, relpath: string) returns (p: string)
    modifies platform
    ensures p == a + relpath
    ensures p[..|a|] == a
  {
    platform.SetPath(a);
    p := platform.GetPath(relpath);
  }

  /** `Fu`, reduced to its registries and screen size. `screenWidth()` and `screenHeight()`
      return the two dimension fields unchanged. */
  class Fu {
    var extensions: seq<ExtensionId>
    var inputDevices: seq<InputDeviceId>
    var screenWidth: int
    var screenHeight: int

    /** The member initialisers: no extensions, no input devices, a 0 by 0 screen. */
    constructor ()
      ensures extensions == [] && inputDevices == []
      ensures screenWidth == 0 && screenHeight == 0
    {
      extensions := [];
      inputDevices := [];
      screenWidth := 0;
      screenHeight := 0;
    }

    /** `addExtension(e)`: appends `e`; earlier extensions keep their order and positions. */
    method AddExtension(e: ExtensionId)
      modifies this
      ensures extensions == old(extensions) + [e]
      ensures inputDevices == old(inputDevices)
      ensures screenWidth == old(screenWidth) && screenHeight == old(screenHeight)
    {
      extensions := extensions + [e];
    }

    /** `addInputDevice(d)`: appends `d`; earlier devices keep their order and positions. */
    method AddInputDevice(d: InputDeviceId)
      modifies this
      ensures inputDevices == old(inputDevices) + [d]
      ensures extensions == old(extensions)
      ensures screenWidth == old(screenWidth) && screenHeight == old(screenHeight)
    {
      inputDevices := inputDevices + [d];
    }
  }
}
