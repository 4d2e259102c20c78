# Color maps of the visualization utility

This project models Open3D's color-map utility, `src/Visualization/Utility/ColorMap.cpp`.
The file has two parts:

- Four palettes: Gray, Jet, Summer and Winter. Each one turns a scalar
  (normally in [0, 1], not clamped by these functions) into an RGB triple with a closed-form formula.
- A process-wide selector. It holds the active palette in a singleton. The
  singleton is created holding Jet the first time it is accessed.
  `GetGlobalColorMap` reads the active palette and `SetGlobalColorMap`
  replaces it. Any option the switch does not name goes to Jet.

`ColorMap.dfy` (module `ColorMap`) holds the palettes. Scalars and channels are
`real`, so the formulas are exact. `GetColor` dispatches on a `Palette` tag.
The source calls two helpers, `JetBase` and `Interpolate`, which live in
`ColorMap.h`; that header is not part of this model. Both helpers are fields of
a `Helpers` value of function type, which every palette function takes as an
argument. So each lemma about the palettes holds for every possible helper. It
depends only on how the source calls them: which argument shifts it uses,
which calls are identical, which channels are constants.

`GlobalColorMap.dfy` (module `GlobalColorMap`) holds the selector, in two layers:

- A state machine over the history of calls made to the selector. `Step` and
  `Run` give the held palette. `GetReplies` gives what the Get calls returned.
  `LastSet` is an independent reference: the palette chosen by the most recent Set.
- The objects. `GlobalColorMapSingleton` has the one mutable field `colorMap`,
  and its constructor installs Jet. `Globals` stands for the function-local
  static inside `GetInstance`. Its field is null until the first access, and
  `GetInstance` fills it then. Ghost fields record the history of calls and the
  Get replies. `Valid()` ties the held palette and the replies to the state
  machine run over that history. So the lemmas about the state machine describe
  what callers of the real methods see.

The C++ option enum can carry values other than its four enumerators. The model
represents them as `OptionOther(code)`.

## Model

| member | source | states |
|---|---|---|
| ColorMap.GrayIsDiagonal | src/Visualization/Utility/ColorMap.cpp:61-64 | Gray puts the input value on all three channels, for every input |
| ColorMap.JetChannelsAreShifted | src/Visualization/Utility/ColorMap.cpp:66-72 | for any jet kernel, red at v + 0.25 equals green at v, green at v + 0.25 equals blue at v, and red at v + 0.5 equals blue at v |
| ColorMap.JetAtMidpoint | src/Visualization/Utility/ColorMap.cpp:66-72 | Jet at 0.5 is the kernel read at -0.5, 0 and 0.5 |
| ColorMap.JetAtEnds | src/Visualization/Utility/ColorMap.cpp:66-72 | Jet at 0 reads the kernel at -1.5, -1, -0.5; Jet at 1 reads it at 0.5, 1, 1.5 |
| ColorMap.SummerBlueIsConstant | src/Visualization/Utility/ColorMap.cpp:74-80 | Summer's blue channel is 0.4 for every input and any helpers |
| ColorMap.WinterRedIsZero | src/Visualization/Utility/ColorMap.cpp:82-88 | Winter's red channel is 0 for every input and any helpers |
| ColorMap.SummerRedIsWinterGreen | src/Visualization/Utility/ColorMap.cpp:74-88 | Summer's red equals Winter's green for every input, because both make the same interpolation call |
| ColorMap.GrayColor | src/Visualization/Utility/ColorMap.cpp:61-64 | no contract of its own: it builds the triple by the formula; `GrayIsDiagonal` states its property |
| ColorMap.JetColor | src/Visualization/Utility/ColorMap.cpp:66-72 | no contract of its own: it builds the triple by the formula; `JetChannelsAreShifted`, `JetAtMidpoint` and `JetAtEnds` state its properties |
| ColorMap.SummerColor | src/Visualization/Utility/ColorMap.cpp:74-80 | no contract of its own: it builds the triple by the formula; `SummerBlueIsConstant` and `SummerRedIsWinterGreen` state its properties |
| ColorMap.WinterColor | src/Visualization/Utility/ColorMap.cpp:82-88 | no contract of its own: it builds the triple by the formula; `WinterRedIsZero` and `SummerRedIsWinterGreen` state its properties |
| ColorMap.GetColor | src/Visualization/Utility/ColorMap.cpp:61-88 | no contract of its own: it dispatches the virtual `GetColor` on the palette tag; every palette lemma above is stated through it |
| GlobalColorMap.SelectedPalette | src/Visualization/Utility/ColorMap.cpp:95-116 | the installed palette is the one the option names, or Jet for an unrecognised option; it is Jet exactly when the option is Jet or unrecognised |
| GlobalColorMap.SelectNamedOption | src/Visualization/Utility/ColorMap.cpp:97-115 | setting the named option of any palette installs exactly that palette |
| GlobalColorMap.RunAppend | src/Visualization/Utility/ColorMap.cpp:90-116 | running two call sequences one after the other equals running their concatenation, for both the held palette and the Get replies |
| GlobalColorMap.RunIsLastSet | src/Visualization/Utility/ColorMap.cpp:95-116 | the held palette after any calls is the palette chosen by the most recent Set, or the starting palette if there was no Set |
| GlobalColorMap.NoSetKeepsState | src/Visualization/Utility/ColorMap.cpp:90-93 | calls that are all Gets leave the held palette unchanged, and each of them returns it |
| GlobalColorMap.DefaultBeforeFirstSet | src/Visualization/Utility/ColorMap.cpp:35-53 | in a process whose selector starts as Jet, every Get before the first Set returns Jet |
| GlobalColorMap.SetThenGet | src/Visualization/Utility/ColorMap.cpp:90-116 | a Get right after a Set returns the palette that Set selected, whatever came before or after |
| GlobalColorMap.GetsAgree | src/Visualization/Utility/ColorMap.cpp:90-93 | two Gets with only Gets between them return the same palette, the one held before the first |
| GlobalColorMap.UnrecognisedIsJet | src/Visualization/Utility/ColorMap.cpp:110-114 | in any context, a Set with an unrecognised option gives the same held palette and Get replies as a Set with Jet |
| GlobalColorMap.SetIdempotent | src/Visualization/Utility/ColorMap.cpp:97-115 | in any context, setting an option twice in a row gives the same held palette and Get replies as setting it once |
| GlobalColorMap.GlobalColorMapSingleton.constructor | src/Visualization/Utility/ColorMap.cpp:38-40 | a newly created singleton holds Jet |
| GlobalColorMap.Globals.constructor | src/Visualization/Utility/ColorMap.cpp:50-53 | at process start no singleton exists, no call has been made, and the palette a Get would see is Jet |
| GlobalColorMap.Globals.GetInstance | src/Visualization/Utility/ColorMap.cpp:50-53 | the first call creates the singleton holding Jet; later calls return the same object; the observable palette does not change |
| GlobalColorMap.Globals.GetGlobalColorMap | src/Visualization/Utility/ColorMap.cpp:90-93 | returns the held palette and leaves it unchanged; the call goes into the history and its reply into the recorded replies |
| GlobalColorMap.Globals.SetGlobalColorMap | src/Visualization/Utility/ColorMap.cpp:95-116 | the held palette becomes the one the option selects (Jet for any unrecognised option), signalling no error; the call is recorded and no reply is added |

`RunOne` and `ReplaceEquivalent` are helper lemmas for the rows above.
`UsageScenario` is a client that walks through typical uses: the default, then Gray at 0.3,
then an unrecognised option, then two Gets.

## Left out

- `JetBase` and `Interpolate`: their bodies are in `ColorMap.h`, which is not part of this model. They are parameters, so no lemma says anything about their ranges or clamping.
- Floating-point rounding of `double`: the arithmetic is exact over `real`.
- The `PrintDebug` logging in the singleton's constructor and destructor is console output.
- `std::shared_ptr` ownership, heap allocation of palette objects and destruction of the old palette on `reset` are memory management. The model holds a palette tag, so a caller that kept the palette from an earlier Get still has that palette, just as a caller holding the old shared pointer does.
- Thread safety of the function-local static and unsynchronised access to `color_map_` are concurrency, which the model leaves out.
- `Eigen::Vector3d` is replaced by the triple `Rgb`.
- The numeric values of the `ColorMapOption` enumerators are declared in `ColorMap.h`, so an unrecognised value is identified only by an opaque `code`.
- The singleton class sits in a file-local namespace in the source, so only the two global functions can reach `color_map_`. The model makes `GetInstance` and `colorMap` public. A client that writes `colorMap` directly breaks `Valid()`, which every later call requires, so the model does not capture that access restriction.
