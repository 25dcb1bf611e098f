/**
 The seed name sets of the clang-gc-tool plugin
 (`AddScanMethodsAction::CreateASTConsumer` in hphp/tools/clang-gc-tool/plugin.cpp).

 Before the consumer is built, five sets of qualified class names are filled
 by runs of `std::set::insert`: classes that need a scan method, classes that
 already have one, GC containers whose scan requirement follows their template
 arguments, ignored classes, and containers that are unsafe for request-heap
 values. The has-scan set is first overwritten with a copy of the needs-scan
 set (which by then also holds every `-scan` name from the arguments).
 */
module ScanSeeds {
  import opened PluginAction

  // The default lists, in the order the source inserts them (duplicates kept).

  /** plugin.cpp:123-135: classes that need a scan method. */
  const DefaultNeedsScanNames: seq<string> := [
    "HPHP::ObjectData", "HPHP::ResourceData", "HPHP::ArrayData", "HPHP::StringData",
    "HPHP::TypedValue", "HPHP::Cell", "HPHP::RefData", "HPHP::Array", "HPHP::String",
    "HPHP::Variant", "HPHP::Object", "HPHP::Resource", "HPHP::RequestEventHandler"
  ]

  // plugin.cpp:152-158
  const HasScanFollyNames: seq<string> := [
    "folly::Optional", "folly::AtomicHashArray", "folly::AtomicHashMap", "folly::Singleton",
    "folly::SingletonVault", "folly::detail::SingletonHolder", "folly::Range"
  ]

  // plugin.cpp:159-175
  const HasScanRequestHeapNames: seq<string> := [
    "HPHP::req::vector", "HPHP::req::deque", "HPHP::req::priority_queue", "HPHP::req::flat_map",
    "HPHP::req::flat_multimap", "HPHP::req::flat_set", "HPHP::req::flat_multiset",
    "HPHP::req::stack", "HPHP::req::map", "HPHP::req::multimap", "HPHP::req::set",
    "HPHP::req::multiset", "HPHP::req::hash_map", "HPHP::req::hash_multimap", "HPHP::req::hash_set",
    "HPHP::req::unique_ptr", "HPHP::req::ptr"
  ]

  // plugin.cpp:176-193
  const HasScanRuntimeNamesA: seq<string> := [
    "HPHP::LowPtr", "HPHP::TlsPodBag", "HPHP::AtomicSharedPtr", "HPHP::NameValueTable",
    "HPHP::NameValueTable::Elm", "HPHP::default_ptr", "HPHP::copy_ptr", "HPHP::Func",
    "HPHP::ExtraArgs", "HPHP::ActRec", "HPHP::Stack", "HPHP::Fault", "HPHP::Value", "HPHP::VarEnv",
    "HPHP::ApcTypedValue", "HPHP::ApcTypedValue::SharedData", "HPHP::MixedArray",
    "HPHP::MixedArray::Elm"
  ]

  // plugin.cpp:194-211
  const HasScanRuntimeNamesB: seq<string> := [
    "HPHP::MixedArray::ValIter", "HPHP::HashCollection", "HPHP::ArrayIter", "HPHP::MArrayIter",
    "HPHP::Iter", "HPHP::Iter::Data", "HPHP::TypedValueAux", "HPHP::hphp_hash_map",
    "HPHP::hphp_hash_set", "HPHP::c_AwaitAllWaitHandle", "HPHP::ThreadLocal",
    "HPHP::ThreadLocalNoCheck", "HPHP::ThreadLocalProxy", "HPHP::ThreadLocalSingleton",
    "HPHP::WandResource", "HPHP::IndexedStringMap", "HPHP::RankedCHM", "HPHP::TinyVector"
  ]

  // plugin.cpp:212-224
  const HasScanStdNamesA: seq<string> := [
    "std::atomic", "std::pair", "std::vector", "std::map", "std::set", "std::vector", "std::deque",
    "std::priority_queue", "std::flat_map", "std::flat_multimap", "std::flat_set",
    "std::flat_multiset", "std::stack"
  ]

  // plugin.cpp:225-235
  const HasScanStdNamesB: seq<string> := [
    "std::map", "std::multimap", "std::set", "std::multiset", "std::hash_map", "std::hash_multimap",
    "std::hash_set", "std::unique_ptr", "std::shared_ptr", "std::weak_ptr", "std::array"
  ]

  // plugin.cpp:236-241
  const HasScanTbbBoostNames: seq<string> := [
    "tbb::concurrent_hash_map", "tbb::interface5::concurrent_hash_map", "boost::variant",
    "boost::container::flat_map", "boost::container::vector",
    "boost::container::vector::const_iterator"
  ]

  /** Names that already have a scan method (copied after the needs-scan set), in insertion order. */
  const DefaultHasScanNames: seq<string> :=
    HasScanFollyNames + HasScanRequestHeapNames + HasScanRuntimeNamesA + HasScanRuntimeNamesB + HasScanStdNamesA + HasScanStdNamesB + HasScanTbbBoostNames

  // plugin.cpp:247-255
  const GcContainerRuntimeNames: seq<string> := [
    "HPHP::req::flat_map", "HPHP::req::flat_multimap", "HPHP::req::flat_set",
    "HPHP::req::flat_multiset", "HPHP::req::hash_map", "HPHP::req::hash_multimap",
    "HPHP::req::hash_set", "HPHP::hphp_hash_map", "HPHP::hphp_hash_set"
  ]

  // plugin.cpp:256-264
  const GcContainerStdNames: seq<string> := [
    "std::flat_map", "std::flat_multimap", "std::flat_set", "std::flat_multiset", "std::hash_map",
    "std::hash_multimap", "std::hash_set", "std::unordered_map", "std::unordered_set"
  ]

  /** Templates whose scan requirement follows their arguments, in insertion order. */
  const DefaultGcContainerNames: seq<string> :=
    GcContainerRuntimeNames + GcContainerStdNames

  // plugin.cpp:270-271
  const IgnoredHeapNames: seq<string> := [
    "HPHP::Header", "HPHP::MemoryManager"
  ]

  // plugin.cpp:274-279
  const IgnoredTestNames: seq<string> := [
    "HPHP::DummyResource2", "HPHP::_php_ezctest_obj", "HPHP::_zend_ezc_test_globals",
    "_php_ezctest_obj", "_zend_ezc_test_globals", "HPHP::TestTransport"
  ]

  // plugin.cpp:282-285
  const IgnoredThirdPartyNames: seq<string> := [
    "MagickWand", "PixelWand", "DrawingWand", "PixelIterator"
  ]

  // plugin.cpp:288-295
  const IgnoredModuleDependencyNames: seq<string> := [
    "HPHP::DnsEvent", "HPHP::GatehouseRequestEventHandler", "HPHP::ProxygenTransport",
    "HPHP::CacheClientEvent", "HPHP::FastCGIServer", "HPHP::FastCGIWorker", "HPHP::FastCGISession",
    "HPHP::FastCGITransport"
  ]

  // plugin.cpp:298-299
  const IgnoredStaticNames: seq<string> := [
    "HPHP::SString", "HPHP::SArray"
  ]

  // plugin.cpp:302-316
  const IgnoredCompilationNames: seq<string> := [
    "HPHP::LitstrTable", "HPHP::HHBBC::StepFlags", "HPHP::HHBBC::State", "HPHP::HHBBC::Type",
    "HPHP::HHBBC::ClassInfo", "HPHP::HHBBC::NamingEnv", "HPHP::Unit", "HPHP::JobQueueWorker",
    "HPHP::ElmKey", "HPHP::jit::SSATmp", "HPHP::jit::Type", "HPHP::HHBBC::WorkResult",
    "HPHP::Eval::DebuggerProxy", "HPHP::PCRECache"
  ]

  // plugin.cpp:322-342
  const IgnoredJitNames: seq<string> := [
    "HPHP::jit::IRUnit", "HPHP::Compiler::EmitterVisitor", "HPHP::jit::BlockPusher",
    "HPHP::Verifier::GraphBuilder", "HPHP::jit::Vgen", "HPHP::jit::AsmInfo",
    "HPHP::jit::UseVisitor", "HPHP::jit::Vinstr", "HPHP::jit::SSATmp", "HPHP::jit::Type",
    "HPHP::jit::Env", "HPHP::jit::Local", "HPHP::jit::RegionFormer", "HPHP::jit::RegionDesc",
    "HPHP::jit::RegionContext", "HPHP::jit::irgen::CatchMaker", "HPHP::jit::MCGenerator",
    "HPHP::jit::DFS", "HPHP::jit::Global", "HPHP::jit::AliasAnalysis"
  ]

  // plugin.cpp:343-363
  const IgnoredRuntimeNames: seq<string> := [
    "HPHP::VariableSerializer", "HPHP::UnitEmitter", "HPHP::PreClass", "HPHP::PreClassEmitter",
    "HPHP::FuncEmitter", "HPHP::AllClasses", "HPHP::ClassScope", "HPHP::SynchronizableMulti",
    "HPHP::QueryExpression", "HPHP::InvalidSetMException", "HPHP::FatalErrorException",
    "HPHP::Fault", "HPHP::LibEventTransport", "HPHP::EHEnt", "HPHP::NamedEntity",
    "HPHP::NamedEntityPairTable", "HPHP::MIterTable", "HPHP::Shape", "HPHP::XDebugCommand",
    "HPHP::XDebugProfiler"
  ]

  // plugin.cpp:365-380
  const IgnoredDebuggerNames: seq<string> := [
    "HPHP::Eval::InterruptSite", "HPHP::Eval::CmdConstant", "HPHP::Eval::CmdExtension",
    "HPHP::Eval::CmdEval", "HPHP::Eval::CmdGlobal", "HPHP::Eval::CmdInterrupt",
    "HPHP::Eval::CmdInfo", "HPHP::Eval::CmdList", "HPHP::Eval::CmdMachine", "HPHP::Eval::CmdNext",
    "HPHP::Eval::CmdPrint", "HPHP::Eval::CmdThread", "HPHP::Eval::CmdVariable",
    "HPHP::Eval::CmdWhere", "HPHP::Eval::DebuggerClient", "HPHP::Eval::DebuggerCommand"
  ]

  // plugin.cpp:382-403
  const IgnoredHhbbcNames: seq<string> := [
    "HPHP::Compiler::SymbolicStack::SymEntry", "HPHP::Compiler::Parser", "HPHP::HHBBC::RunFlags",
    "HPHP::HHBBC::Bytecode", "HPHP::HHBBC::ActRec", "HPHP::HHBBC::Index", "HPHP::HHBBC::Type",
    "HPHP::HHBBC::Type::Data", "HPHP::HHBBC::MElem", "HPHP::HHBBC::MVector",
    "HPHP::HHBBC::php::Class", "HPHP::HHBBC::php::Unit", "HPHP::HHBBC::php::Func",
    "HPHP::HHBBC::php::Local", "HPHP::HHBBC::php::Prop", "HPHP::HHBBC::php::Const",
    "HPHP::HHBBC::php::Param", "HPHP::HHBBC::php::Block", "HPHP::HHBBC::FuncAnalysis",
    "HPHP::HHBBC::ISS", "HPHP::HHBBC::MIS", "HPHP::HHBBC::Base"
  ]

  // plugin.cpp:406-418
  const IgnoredHackyNames: seq<string> := [
    "HPHP::RequestInjectionData", "folly::NotificationQueue", "folly::FormatValue",
    "folly::SSLContext", "folly::EventBaseManager", "folly::AsyncSSLSocket",
    "folly::AsyncUDPServerSocket", "folly::Acceptor", "folly::TransportInfo",
    "folly::SSLCacheProvider", "folly::SSLSocket", "folly::Acceptor", "std::thread"
  ]

  /** Classes left out of the analysis, in insertion order. */
  const DefaultIgnoredNames: seq<string> :=
    IgnoredHeapNames + IgnoredTestNames + IgnoredThirdPartyNames + IgnoredModuleDependencyNames + IgnoredStaticNames + IgnoredCompilationNames + IgnoredJitNames + IgnoredRuntimeNames + IgnoredDebuggerNames + IgnoredHhbbcNames + IgnoredHackyNames

  // plugin.cpp:424-438
  const BadContainerNamesA: seq<string> := [
    "std::vector", "std::map", "std::set", "std::vector", "std::deque", "std::priority_queue",
    "std::flat_map", "std::flat_multimap", "std::flat_set", "std::flat_multiset", "std::stack",
    "std::map", "std::multimap", "std::set", "std::multiset"
  ]

  // plugin.cpp:439-450
  const BadContainerNamesB: seq<string> := [
    "std::hash_map", "std::hash_multimap", "std::hash_set", "std::unique_ptr", "std::shared_ptr",
    "std::weak_ptr", "std::array", "boost::container::flat_map", "boost::container::flat_set",
    "boost::container::set", "boost::container::map", "boost::container::vector"
  ]

  /** Containers unsafe for request-heap values, in insertion order. */
  const DefaultBadContainerNames: seq<string> :=
    BadContainerNamesA + BadContainerNamesB

  /** A run of set insertions, one name after another. */
  function InsertAll(s: set<string>, names: seq<string>): (r: set<string>)
    ensures forall x :: x in r <==> x in s || x in names
    decreases |names|
  {
    if |names| == 0 then s else InsertAll(s + {names[0]}, names[1..])
  }

  /** Inserting the same names again changes nothing. */
  lemma InsertAllIdempotent(s: set<string>, names: seq<string>)
    ensures InsertAll(InsertAll(s, names), names) == InsertAll(s, names)
  {
  }

  /** Inserting a name that was already inserted changes nothing. */
  lemma InsertAllDuplicate(s: set<string>, names: seq<string>, x: string)
    requires x in names
    ensures InsertAll(s, names + [x]) == InsertAll(s, names)
  {
  }

  /** The seed-set part of `CreateASTConsumer`. */
  function BuildSeedSets(a: Action): (r: Action)
    ensures r.verbose == a.verbose && r.outdir == a.outdir
    ensures forall x :: x in r.needsScanMethodNames <==>
      x in a.needsScanMethodNames || x in DefaultNeedsScanNames
    ensures a.needsScanMethodNames <= r.needsScanMethodNames <= r.hasScanMethodNames
    ensures forall x :: x in r.hasScanMethodNames <==>
      x in r.needsScanMethodNames || x in DefaultHasScanNames
    ensures forall x :: x in r.gcContainerNames <==>
      x in a.gcContainerNames || x in DefaultGcContainerNames
    ensures forall x :: x in r.ignoredNames <==> x in a.ignoredNames || x in DefaultIgnoredNames
    ensures forall x :: x in r.badContainerNames <==>
      x in a.badContainerNames || x in DefaultBadContainerNames
  {
    var needs := InsertAll(a.needsScanMethodNames, DefaultNeedsScanNames);
    a.(needsScanMethodNames := needs,
       hasScanMethodNames := InsertAll(needs, DefaultHasScanNames),
       gcContainerNames := InsertAll(a.gcContainerNames, DefaultGcContainerNames),
       ignoredNames := InsertAll(a.ignoredNames, DefaultIgnoredNames),
       badContainerNames := InsertAll(a.badContainerNames, DefaultBadContainerNames))
  }

  /** Building the seed sets a second time yields the same five sets. */
  lemma BuildSeedSetsIdempotent(a: Action)
    ensures BuildSeedSets(BuildSeedSets(a)) == BuildSeedSets(a)
  {
    InsertAllIdempotent(a.needsScanMethodNames, DefaultNeedsScanNames);
    InsertAllIdempotent(a.gcContainerNames, DefaultGcContainerNames);
    InsertAllIdempotent(a.ignoredNames, DefaultIgnoredNames);
    InsertAllIdempotent(a.badContainerNames, DefaultBadContainerNames);
  }

  /** The seed sets are not disjoint: `HPHP::Fault` both has a scan method and
      is ignored, `std::vector` both has a scan method and is a bad container. */
  lemma SeedSetsOverlap(a: Action)
    ensures var r := BuildSeedSets(a);
      && "HPHP::Fault" in r.hasScanMethodNames && "HPHP::Fault" in r.ignoredNames
      && "std::vector" in r.hasScanMethodNames && "std::vector" in r.badContainerNames
  {
    assert HasScanRuntimeNamesA[11] == "HPHP::Fault";
    assert IgnoredRuntimeNames[11] == "HPHP::Fault";
    assert HasScanStdNamesA[2] == "std::vector";
    assert BadContainerNamesA[0] == "std::vector";
  }

  /** `std::vector` is inserted twice into the has-scan set and twice into the
      bad-container set; each second insertion leaves the set as it was. */
  lemma RepeatedVectorInsertions(s: set<string>)
    ensures DefaultHasScanNames[62] == DefaultHasScanNames[65] == "std::vector"
    ensures InsertAll(s, DefaultHasScanNames[..66]) == InsertAll(s, DefaultHasScanNames[..65])
    ensures DefaultBadContainerNames[0] == DefaultBadContainerNames[3] == "std::vector"
    ensures InsertAll(s, DefaultBadContainerNames[..4]) == InsertAll(s, DefaultBadContainerNames[..3])
  {
  }

  /** The plugin's configuration phase: the arguments are parsed into a fresh
      action, then the seed sets are built. */
  method Configure(args: seq<string>) returns (ok: bool, r: Action)
    ensures ok
    ensures forall j :: 0 <= j < |args| && IsScanOperand(args, j) ==>
      args[j] in r.needsScanMethodNames && args[j] in r.hasScanMethodNames
    ensures forall x :: x in r.needsScanMethodNames <==> x in DefaultNeedsScanNames || IsScanName(args, x)
    ensures r.needsScanMethodNames <= r.hasScanMethodNames
    ensures r.verbose <==> HasVerboseToken(args)
    ensures OutdirIsLast(args, 0, "", r.outdir)
    ensures forall x :: x in r.hasScanMethodNames <==> x in r.needsScanMethodNames || x in DefaultHasScanNames
    ensures forall x :: x in r.gcContainerNames <==> x in DefaultGcContainerNames
    ensures forall x :: x in r.ignoredNames <==> x in DefaultIgnoredNames
    ensures forall x :: x in r.badContainerNames <==> x in DefaultBadContainerNames
    ensures r == BuildSeedSets(Parse(InitialAction, args))
  {
    var parsed;
    ok, parsed := ParseArgs(InitialAction, args);
    r := BuildSeedSets(parsed);
  }
}
