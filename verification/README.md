# HHVM clang-gc-tool configuration and php7 unit arena, in Dafny

This project models two small, self-contained parts of HHVM.

1. **The clang-gc-tool plugin's configuration** (`hphp/tools/clang-gc-tool/plugin.cpp`).
   The plugin action holds a verbose flag, an output directory and five sets of
   qualified class names. `ParseArgs` folds the plugin arguments into that state:
   - `-scan NAME` adds `NAME` to the needs-scan set, whatever `NAME` looks like;
   - `-v` switches verbose on;
   - any other token becomes the output directory.

   `CreateASTConsumer` then seeds the five sets with fixed lists. The sets are:
   - classes needing a scan method;
   - classes that already have one;
   - GC containers;
   - ignored classes;
   - bad containers.

   The has-scan set starts as a copy of the needs-scan set, which by then also
   holds the `-scan` names.
2. **The php7 compilation unit** (`hphp/php7/unit.h`). A `Unit` owns a
   pseudomain, top-level functions and classes. A `Class` owns methods. All of
   them are only ever appended to.

Files:
- `plugin_action.dfy`, module `PluginAction`. It holds the `Action` record and
  the parser. `ParseFrom` is the loop as a recursive function. `ParseArgs` is
  the loop itself.
  - The parse is also described position by position. `ScanRun(args, i)`
    counts the consecutive `-scan` tokens just before position `i`.
  - A token is swallowed as a class name exactly when that count is odd.
  - The lemmas prove the parser agrees with this description.
- `scan_seeds.dfy`, module `ScanSeeds`. It holds:
  - the five default name lists, transcribed in insertion order with their
    duplicates;
  - `InsertAll`, a run of `std::set::insert` calls;
  - `BuildSeedSets`, the seed part of `CreateASTConsumer`;
  - `Configure`, which is `ParseArgs` followed by seeding, the order in which
    clang calls the two.
- `php7_unit.dfy`, module `Php7Unit`. It models the arena with immutable
  records. Pointers become positions:
  - a unit is named by a `UnitId` standing for its address;
  - `definingClass` holds the class's position in its unit;
  - each `make*` returns the updated unit and the position of the new element.

  `Valid` is the arena invariant. Every child points back to its owner, and a
  class's `index` is its position cut to 32 bits. `Build` replays any sequence
  of `makeFunction`, `makeClass` and `makeMethod` calls. It is a driver for the
  lemmas about call sequences, not an operation of `unit.h`, so it has no row
  of its own; `BuildPreservesValid` states what it keeps.

Three points of behaviour are fixed by the code and kept by the model:
- The output directory is not a required argument. With no bare token,
  `outdir` keeps its initial empty value.
- The seed sets have no precedence between them. They are plain sets that
  overlap (`HPHP::Fault` is both has-scan and ignored).
- `ParseArgs` accepts every argument list and always returns true.

## Model

| member | source | states |
|---|---|---|
| PluginAction.AddNeedsScan | hphp/tools/clang-gc-tool/plugin.cpp:473 | inserting a `-scan` name adds exactly that name to the needs-scan set and leaves every other field of the action as it was |
| PluginAction.ParseFrom | hphp/tools/clang-gc-tool/plugin.cpp:470-480 | continuing the loop from any position never removes a needs-scan name, never resets verbose, and never touches the gc-container, has-scan, ignored or bad-container sets |
| PluginAction.Parse | hphp/tools/clang-gc-tool/plugin.cpp:470-480 | the whole parse: a name ends in needs-scan iff it was there or is the operand of some `-scan`; verbose ends true iff it was true or some free token is `-v`; outdir is the last free token other than `-v`, or the old value if there is none |
| PluginAction.ParseFromNeedsScan | hphp/tools/clang-gc-tool/plugin.cpp:470-474 | after parsing, a name is in needs-scan iff it was there before or it is a token swallowed by a preceding `-scan` (odd run of `-scan` before it); nothing is removed |
| PluginAction.ParseFromVerbose | hphp/tools/clang-gc-tool/plugin.cpp:475-476 | verbose ends true iff it was already true or some token that is neither `-scan` nor swallowed by one equals `-v`; it is never reset |
| PluginAction.ParseFromOutdir | hphp/tools/clang-gc-tool/plugin.cpp:477-479 | outdir is the last token that is not `-scan`, not swallowed by `-scan` and not `-v`; with no such token it keeps its old value |
| PluginAction.ScanConsumesNext | hphp/tools/clang-gc-tool/plugin.cpp:471-474 | `-scan X rest` always adds X as a class name, even when X is `-v`, `-scan` or a directory, and then parses `rest` from scratch |
| PluginAction.ParseFromTrailingScan | hphp/tools/clang-gc-tool/plugin.cpp:471-474 | appending a lone `-scan` changes nothing when it is read as a flag; when it follows an unanswered `-scan` it is itself added as the class name "-scan" |
| PluginAction.TrailingScanIsIgnored | hphp/tools/clang-gc-tool/plugin.cpp:472-474 | a trailing `-scan` with no following token adds nothing and leaves verbose and outdir unchanged |
| PluginAction.ScanThenVerbose | hphp/tools/clang-gc-tool/plugin.cpp:471-476 | `-scan -v` registers a class named `-v` and does not switch verbose on, so from the initial action verbose stays false |
| PluginAction.ParseArgs | hphp/tools/clang-gc-tool/plugin.cpp:466-482 | the iterator loop returns true on every input; needs-scan grows by exactly the `-scan` operands; verbose and outdir follow the free tokens as above; the other sets are untouched |
| ScanSeeds.InsertAll | hphp/tools/clang-gc-tool/plugin.cpp:123-135 | a run of insertions holds exactly the old names plus every inserted name, whatever the repetitions |
| ScanSeeds.InsertAllIdempotent | hphp/tools/clang-gc-tool/plugin.cpp:123-135 | repeating a run of insertions leaves the set unchanged |
| ScanSeeds.InsertAllDuplicate | hphp/tools/clang-gc-tool/plugin.cpp:214-217 | inserting a name already inserted earlier in the run leaves the set unchanged |
| ScanSeeds.BuildSeedSets | hphp/tools/clang-gc-tool/plugin.cpp:119-451 | needs-scan keeps its earlier names (those from `-scan`) and gains the defaults; has-scan is overwritten by needs-scan plus its own list, so has-scan contains needs-scan; the other three sets gain their lists; verbose and outdir are untouched |
| ScanSeeds.BuildSeedSetsIdempotent | hphp/tools/clang-gc-tool/plugin.cpp:123-450 | building the seed sets twice gives the same five sets as building them once |
| ScanSeeds.SeedSetsOverlap | hphp/tools/clang-gc-tool/plugin.cpp:187-424 | the sets are not disjoint: `HPHP::Fault` is both has-scan and ignored, `std::vector` is both has-scan and bad-container |
| ScanSeeds.RepeatedVectorInsertions | hphp/tools/clang-gc-tool/plugin.cpp:214-427 | `std::vector` is inserted twice into has-scan and twice into bad-container, and each second insertion leaves the set as it was |
| ScanSeeds.Configure | hphp/tools/clang-gc-tool/plugin.cpp:119-495 | from the initial action, parsing then seeding returns true; needs-scan is exactly the defaults plus the `-scan` operands; every `-scan` name is also in has-scan; verbose and outdir are as parsed from `false` and the empty string; has-scan is exactly needs-scan plus its list; the gc-container, ignored and bad-container sets are exactly their lists; the whole result is the seeding of the parse |
| Php7Unit.NewFunction | hphp/php7/unit.h:42-51 | a new function records its unit and defining class, has no attributes, so it does not return by reference |
| Php7Unit.ReturnsByReferenceIsTheBit | hphp/php7/unit.h:46-48 | `returnsByReference` is decided by the reference bit alone: setting it gives true, clearing it gives false, other bits never matter |
| Php7Unit.ReturnsByReference | hphp/php7/unit.h:46-48 | with the reference flag at bit 0, a function returns by reference iff its attribute word is odd |
| Php7Unit.NewUnit | hphp/php7/unit.h:92-93 | a fresh unit is well formed, with a pseudomain whose parent is the unit and whose defining class is null, and with no functions and no classes |
| Php7Unit.GetPseudomain | hphp/php7/unit.h:95-97 | in a well-formed unit the pseudomain belongs to the unit and has no defining class |
| Php7Unit.NextClassId | hphp/php7/unit.h:104-106 | the next class id is the class count cut to 32 bits; below 2^32 classes it is the count itself |
| Php7Unit.MakeFunction | hphp/php7/unit.h:99-102 | appends exactly one function, owned by the unit and with a null defining class; earlier functions, the classes and the pseudomain are unchanged; the returned position is the last one |
| Php7Unit.MakeFunctionPreservesValid | hphp/php7/unit.h:99-102 | adding a top-level function keeps the unit well formed |
| Php7Unit.MakeClass | hphp/php7/unit.h:108-111 | appends exactly one class, owned by the unit, whose index is the class count before the call; earlier classes, the functions and the pseudomain are unchanged; the returned position is the last one |
| Php7Unit.MakeClassPreservesValid | hphp/php7/unit.h:61-63 | adding a class keeps every class's index equal to its position (mod 2^32) |
| Php7Unit.MakeMethod | hphp/php7/unit.h:65-68 | appends exactly one method to that class, owned by the class's unit and defined by that class; the class's other fields, all other classes and the unit's functions are unchanged |
| Php7Unit.MakeMethodPreservesValid | hphp/php7/unit.h:65-68 | adding a method keeps the unit well formed |
| Php7Unit.IndexIsPosition | hphp/php7/unit.h:104-111 | in a well-formed unit of at most 2^32 classes each class's index is its position, so indices are distinct |
| Php7Unit.BuildPreservesValid | hphp/php7/unit.h:91-117 | any sequence of make calls keeps the unit well formed, never shrinks its function or class lists and never replaces its pseudomain |
| Php7Unit.FreshUnitIndices | hphp/php7/unit.h:92-111 | starting from a fresh unit, after any sequence of make calls the class at position i has index i and belongs to that unit |

## Left out

- The GC scan classification and generation engine is not part of this model.
  It covers the fixed-point propagation, container delegation, bad-container
  warnings and scan-method synthesis. `ResolveClassesVisitor` and
  `ScanGenerator` come from `resolve-classes.h` and `scan-generator.h`, and
  those files are not part of this model.
- Clang glue is left out because it is front-end API and output I/O. This
  covers:
  - the `AddScanMethodsConsumer` constructor wiring;
  - `HandleTranslationUnit`;
  - the `Rewriter`;
  - the hand-off of the sets to the consumer;
  - `PrintHelp`;
  - plugin registration.
- `ParseArgs` ignores its `CompilerInstance` argument, so the model has no
  such parameter.
- For a trailing `-scan`, the source advances its iterator one step past
  `end()` before the loop test. The model treats this as the end of the loop,
  and `ParseArgs` lets its index reach `|args| + 1` for that case only.
- `Class::getConstructor`, `Class::buildPropInit` and `makeFatalUnit` are
  declared without bodies in `unit.h`, so they are not modelled.
- `CFG`, `folly::Optional` and the `Attr` enum come from headers that are not
  part of this model.
  - The attribute word is a `bv32`.
  - `AttrReference` is taken to be bit 0, its value in HHVM's attribute enum.
    `ReturnsByReferenceIsTheBit` needs only that it is a single non-zero bit.
    The contract of `ReturnsByReference` (odd attribute word) depends on its
    being bit 0.
- `startLineno` and `endLineno` are left uninitialised by the constructor, and
  the CFG is an opaque foreign type. The model's `Function` omits these fields.
- Pointer identity and `unique_ptr` ownership become positions and a `UnitId`.
  Aliasing of returned pointers is therefore not modelled.
- `Build` skips an `AddMethod` step that names a class not yet created. That
  step stands for no call, because the source cannot call `makeMethod` on a
  class it does not have.
