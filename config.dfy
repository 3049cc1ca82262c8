/** Settings resolution: the `Settings` defaults, reading the YAML file,
    flattening its nested sections into the 13 field names, and resolving
    every field with the precedence environment > file > default. */
module Config {
  import opened Values
  import opened Builtins

  /** The fields of `Settings`, in declaration order. */
  datatype Field =
    | LlmModel | EmbedModel | OllamaBaseUrl
    | MilvusHost | MilvusPort | MilvusCollection | MilvusDim
    | DataDir | ChunkSize | ChunkOverlap
    | TopK
    | LlmTimeout | EmbedTimeout

  const AllFields: seq<Field> := [
    LlmModel, EmbedModel, OllamaBaseUrl,
    MilvusHost, MilvusPort, MilvusCollection, MilvusDim,
    DataDir, ChunkSize, ChunkOverlap,
    TopK,
    LlmTimeout, EmbedTimeout
  ]

  /** The attribute name of a field, which is also its key in the flat map. */
  function FieldName(f: Field): string {
    match f
    case LlmModel => "llm_model"
    case EmbedModel => "embed_model"
    case OllamaBaseUrl => "ollama_base_url"
    case MilvusHost => "milvus_host"
    case MilvusPort => "milvus_port"
    case MilvusCollection => "milvus_collection"
    case MilvusDim => "milvus_dim"
    case DataDir => "data_dir"
    case ChunkSize => "chunk_size"
    case ChunkOverlap => "chunk_overlap"
    case TopK => "top_k"
    case LlmTimeout => "llm_timeout"
    case EmbedTimeout => "embed_timeout"
  }

  /** The environment variable that overrides a field. */
  function EnvName(f: Field): string {
    match f
    case LlmModel => "LLM_MODEL"
    case EmbedModel => "EMBED_MODEL"
    case OllamaBaseUrl => "OLLAMA_BASE_URL"
    case MilvusHost => "MILVUS_HOST"
    case MilvusPort => "MILVUS_PORT"
    case MilvusCollection => "MILVUS_COLLECTION"
    case MilvusDim => "MILVUS_DIM"
    case DataDir => "DATA_DIR"
    case ChunkSize => "CHUNK_SIZE"
    case ChunkOverlap => "CHUNK_OVERLAP"
    case TopK => "TOP_K"
    case LlmTimeout => "LLM_TIMEOUT"
    case EmbedTimeout => "EMBED_TIMEOUT"
  }

  /** `AllFields` lists every field. */
  lemma EveryFieldListed()
    ensures forall f :: f in AllFields
    ensures |AllFields| == 13
    ensures forall i, j :: 0 <= i < j < |AllFields| ==> AllFields[i] != AllFields[j]
  {
    forall f ensures f in AllFields {
      match f
      case LlmModel => assert AllFields[0] == f;
      case EmbedModel => assert AllFields[1] == f;
      case OllamaBaseUrl => assert AllFields[2] == f;
      case MilvusHost => assert AllFields[3] == f;
      case MilvusPort => assert AllFields[4] == f;
      case MilvusCollection => assert AllFields[5] == f;
      case MilvusDim => assert AllFields[6] == f;
      case DataDir => assert AllFields[7] == f;
      case ChunkSize => assert AllFields[8] == f;
      case ChunkOverlap => assert AllFields[9] == f;
      case TopK => assert AllFields[10] == f;
      case LlmTimeout => assert AllFields[11] == f;
      case EmbedTimeout => assert AllFields[12] == f;
    }
  }

  /** How `load_settings` converts a field: `str(...)`, `int(...)`, or
      `float(...)` (the last is not modelled). */
  datatype Kind = TextKind | IntKind | FloatKind

  function KindOf(f: Field): Kind {
    match f
    case MilvusPort | MilvusDim | ChunkSize | ChunkOverlap | TopK => IntKind
    case LlmTimeout | EmbedTimeout => FloatKind
    case _ => TextKind
  }

  /** The resolved configuration. The timeouts keep the value that
      `float(...)` would be applied to. */
  datatype Settings = Settings(
    llm_model: Text,
    embed_model: Text,
    ollama_base_url: Text,
    milvus_host: Text,
    milvus_port: int,
    milvus_collection: Text,
    milvus_dim: int,
    data_dir: Text,
    chunk_size: int,
    chunk_overlap: int,
    top_k: int,
    llm_timeout: Value,
    embed_timeout: Value
  )

  /** The dataclass defaults. */
  const Defaults: Settings := Settings(
    Chars("qwen3:4b"),
    Chars("nomic-embed-text"),
    Chars("http://localhost:11434"),
    Chars("localhost"),
    19530,
    Chars("rag_docs"),
    768,
    Chars("data"),
    1024,
    100,
    5,
    Float(120.0),
    Float(60.0)
  )

  /** One field of a `Settings`, whatever its type. */
  datatype Setting = TextSetting(t: Text) | IntSetting(i: int) | TimeoutSetting(v: Value)

  function Project(s: Settings, f: Field): Setting {
    match f
    case LlmModel => TextSetting(s.llm_model)
    case EmbedModel => TextSetting(s.embed_model)
    case OllamaBaseUrl => TextSetting(s.ollama_base_url)
    case MilvusHost => TextSetting(s.milvus_host)
    case MilvusPort => IntSetting(s.milvus_port)
    case MilvusCollection => TextSetting(s.milvus_collection)
    case MilvusDim => IntSetting(s.milvus_dim)
    case DataDir => TextSetting(s.data_dir)
    case ChunkSize => IntSetting(s.chunk_size)
    case ChunkOverlap => IntSetting(s.chunk_overlap)
    case TopK => IntSetting(s.top_k)
    case LlmTimeout => TimeoutSetting(s.llm_timeout)
    case EmbedTimeout => TimeoutSetting(s.embed_timeout)
  }

  /** The class attribute `Settings.<field>` as a value that `yaml_cfg.get`
      may return. */
  function DefaultValue(f: Field): Value {
    match Project(Defaults, f)
    case TextSetting(t) => (match t case Chars(s) => Str(s) case Unrendered(v) => v)
    case IntSetting(i) => Int(i)
    case TimeoutSetting(v) => v
  }

  /** What makes loading fail. The code raises Python's own exceptions:
      `AttributeError` when `.get` is called on a document or a section that
      is not a dict, `ValueError` or `TypeError` from `int(...)`. */
  datatype LoadError =
    | DocumentNotADict
    | SectionNotADict(section: string)
    | IntConversion(field: string, failure: IntFailure)

  // ---------------------------------------------------------------------
  // Reading the file

  /** `_read_yaml`: `files` maps each existing path to what `yaml.safe_load`
      parses its contents to (`Null` for an empty file). */
  function ReadYaml(path: Option<string>, files: map<string, Value>): (doc: Value)
    ensures Truthy(doc) || doc == Mapping(map[])
    ensures path.None? || path == Some("") || path.value !in files ==> doc == Mapping(map[])
    ensures path.Some? && path.value != "" && path.value in files && Truthy(files[path.value]) ==>
              doc == files[path.value]
    ensures path.Some? && path.value in files && !Truthy(files[path.value]) ==> doc == Mapping(map[])
  {
    if path.None? || path.value == "" then Mapping(map[])
    else if path.value !in files then Mapping(map[])
    else Or(files[path.value], Mapping(map[]))
  }

  // ---------------------------------------------------------------------
  // Flattening

  /** Where a field lives in the YAML document. */
  datatype Path =
    | Top(key: string)
    | Nested(section: string, key: string)
      /** top-level `key` if present (even if null), else `section.nestedKey` */
    | TopThenNested(key: string, section: string, nestedKey: string)

  function SourcePath(f: Field): Path {
    match f
    case LlmModel => Top("llm_model")
    case EmbedModel => Top("embed_model")
    case OllamaBaseUrl => Top("ollama_base_url")
    case MilvusHost => Nested("milvus", "host")
    case MilvusPort => Nested("milvus", "port")
    case MilvusCollection => Nested("milvus", "collection")
    case MilvusDim => Nested("milvus", "dim")
    case DataDir => Nested("ingest", "data_dir")
    case ChunkSize => Nested("ingest", "chunk_size")
    case ChunkOverlap => Nested("ingest", "chunk_overlap")
    case TopK => Nested("query", "top_k")
    case LlmTimeout => TopThenNested("llm_timeout", "timeouts", "llm")
    case EmbedTimeout => TopThenNested("embed_timeout", "timeouts", "embed")
  }

  /** The sections in the order the flattening reads them. */
  const Sections: seq<string> := ["milvus", "ingest", "query", "timeouts"]

  /** `cfg.get(name, {}) or {}`: a missing or falsy section reads as `{}`. */
  function SectionValue(c: map<string, Value>, name: string): Value {
    Or(GetOr(c, name, Mapping(map[])), Mapping(map[]))
  }

  function SectionEntries(c: map<string, Value>, name: string): map<string, Value> {
    var v := SectionValue(c, name);
    if v.Mapping? then v.m else map[]
  }

  /** The first section, in reading order, that is present, truthy and not
      a mapping: calling `.get` on it raises. */
  function FirstBadSection(c: map<string, Value>, names: seq<string>): Option<string> {
    if names == [] then None
    else if !SectionValue(c, names[0]).Mapping? then Some(names[0])
    else FirstBadSection(c, names[1..])
  }

  lemma FirstBadSectionInOrder(c: map<string, Value>)
    ensures FirstBadSection(c, Sections) ==
      if !SectionValue(c, "milvus").Mapping? then Some("milvus")
      else if !SectionValue(c, "ingest").Mapping? then Some("ingest")
      else if !SectionValue(c, "query").Mapping? then Some("query")
      else if !SectionValue(c, "timeouts").Mapping? then Some("timeouts")
      else None
  {
    var s1, s2, s3: seq<string> := ["ingest", "query", "timeouts"], ["query", "timeouts"], ["timeouts"];
    assert Sections[1..] == s1 && s1[1..] == s2 && s2[1..] == s3 && s3[1..] == [];
    assert FirstBadSection(c, s3) ==
      if !SectionValue(c, "timeouts").Mapping? then Some("timeouts") else None;
    assert FirstBadSection(c, s2) ==
      if !SectionValue(c, "query").Mapping? then Some("query") else FirstBadSection(c, s3);
    assert FirstBadSection(c, s1) ==
      if !SectionValue(c, "ingest").Mapping? then Some("ingest") else FirstBadSection(c, s2);
  }

  function PathValue(c: map<string, Value>, p: Path): Value {
    match p
    case Top(k) => Get(c, k)
    case Nested(section, k) => Get(SectionEntries(c, section), k)
    case TopThenNested(k, section, nk) => GetOr(c, k, Get(SectionEntries(c, section), nk))
  }

  /** The value the document gives a field, `Null` when it gives none. */
  function FileValue(c: map<string, Value>, f: Field): Value {
    PathValue(c, SourcePath(f))
  }

  /** What `_flatten` returns for a parsed document. The keys of the dict
      it builds are always the attribute names of `Settings`, so the model
      keys it by `Field`. */
  function Flattened(cfg: Value): (r: Result<map<Field, Value>, LoadError>)
    ensures !Truthy(cfg) ==> r == Ok(map[])
    ensures Truthy(cfg) && !cfg.Mapping? ==> r == Err(DocumentNotADict)
    ensures cfg.Mapping? && Truthy(cfg) ==>
              match FirstBadSection(cfg.m, Sections)
              case Some(name) => r == Err(SectionNotADict(name))
              case None => r.Ok?
    ensures r.Ok? ==> forall f :: f in r.value ==> r.value[f] != Null
    ensures r.Ok? && cfg.Mapping? ==> forall f :: f in r.value <==> FileValue(cfg.m, f) != Null
    ensures r.Ok? && cfg.Mapping? ==> forall f :: f in r.value ==> r.value[f] == FileValue(cfg.m, f)
  {
    if !Truthy(cfg) then Ok(map[])
    else if !cfg.Mapping? then Err(DocumentNotADict)
    else
      match FirstBadSection(cfg.m, Sections)
      case Some(name) => Err(SectionNotADict(name))
      case None =>
        EveryFieldListed();
        Ok(map f | f in AllFields && FileValue(cfg.m, f) != Null :: FileValue(cfg.m, f))
  }

  /** A top-level timeout key wins over the `timeouts` section as soon as it
      is present, even with a null value; the section is consulted only when
      the key is absent. */
  lemma TopLevelTimeoutWins(c: map<string, Value>, f: Field, top: string, nested: string)
    requires c != map[] && FirstBadSection(c, Sections).None?
    requires (f, top, nested) in {(LlmTimeout, "llm_timeout", "llm"), (EmbedTimeout, "embed_timeout", "embed")}
    ensures var r := Flattened(Mapping(c)).value;
      && (top in c ==> (f in r <==> c[top] != Null) && (f in r ==> r[f] == c[top]))
      && (top !in c ==> (f in r <==> Get(SectionEntries(c, "timeouts"), nested) != Null))
      && (top !in c && f in r ==> r[f] == SectionEntries(c, "timeouts")[nested])
  {
  }

  /** A field read from a section (`milvus.host` becomes `milvus_host`, and
      so on): a section that is missing, null or otherwise falsy reads as
      empty, and the field is present exactly when the section gives its key
      a non-null value. */
  lemma NestedFieldFromSection(c: map<string, Value>, f: Field)
    requires c != map[] && FirstBadSection(c, Sections).None?
    requires SourcePath(f).Nested?
    ensures var r := Flattened(Mapping(c)).value;
      var section, key := SourcePath(f).section, SourcePath(f).key;
      && (section !in c || !Truthy(c[section]) ==> f !in r)
      && (f in r <==> section in c && c[section].Mapping? && key in c[section].m && c[section].m[key] != Null)
      && (f in r ==> r[f] == c[section].m[key])
  {
  }

  /** `_flatten`, step by step as the code builds its dict. */
  method Flatten(cfg: Value) returns (r: Result<map<Field, Value>, LoadError>)
    ensures r == Flattened(cfg)
  {
    var out: map<Field, Value> := map[];
    if !Truthy(cfg) {
      return Ok(out);
    }
    if !cfg.Mapping? {
      return Err(DocumentNotADict);
    }
    var c := cfg.m;
    FirstBadSectionInOrder(c);
    out := out[LlmModel := Get(c, "llm_model")];
    out := out[EmbedModel := Get(c, "embed_model")];
    out := out[OllamaBaseUrl := Get(c, "ollama_base_url")];

    var milvus := Or(GetOr(c, "milvus", Mapping(map[])), Mapping(map[]));
    if !milvus.Mapping? {
      return Err(SectionNotADict("milvus"));
    }
    out := out[MilvusHost := Get(milvus.m, "host")];
    out := out[MilvusPort := Get(milvus.m, "port")];
    out := out[MilvusCollection := Get(milvus.m, "collection")];
    out := out[MilvusDim := Get(milvus.m, "dim")];

    var ingest := Or(GetOr(c, "ingest", Mapping(map[])), Mapping(map[]));
    if !ingest.Mapping? {
      return Err(SectionNotADict("ingest"));
    }
    out := out[DataDir := Get(ingest.m, "data_dir")];
    out := out[ChunkSize := Get(ingest.m, "chunk_size")];
    out := out[ChunkOverlap := Get(ingest.m, "chunk_overlap")];

    var query := Or(GetOr(c, "query", Mapping(map[])), Mapping(map[]));
    if !query.Mapping? {
      return Err(SectionNotADict("query"));
    }
    out := out[TopK := Get(query.m, "top_k")];

    // the nested lookup is the default argument of `cfg.get`, so it is
    // evaluated even when the top-level key is present
    var timeouts := Or(GetOr(c, "timeouts", Mapping(map[])), Mapping(map[]));
    if !timeouts.Mapping? {
      return Err(SectionNotADict("timeouts"));
    }
    out := out[LlmTimeout := GetOr(c, "llm_timeout", Get(timeouts.m, "llm"))];
    out := out[EmbedTimeout := GetOr(c, "embed_timeout", Get(timeouts.m, "embed"))];

    r := Ok(map k | k in out && out[k] != Null :: out[k]);
    BuiltDictIsFlattened(c, milvus.m, ingest.m, query.m, timeouts.m, out);
  }

  // The proof that `Flatten` computes `Flattened`, in pieces small enough
  // for the solver.

  /** Once `_flatten` has assigned every field, dropping the `None` values
      gives what `Flattened` describes. */
  lemma BuiltDictIsFlattened(
    c: map<string, Value>,
    milvus: map<string, Value>,
    ingest: map<string, Value>,
    query: map<string, Value>,
    timeouts: map<string, Value>,
    out: map<Field, Value>
  )
    requires c != map[] && FirstBadSection(c, Sections).None?
    requires SectionValue(c, "milvus") == Mapping(milvus)
    requires SectionValue(c, "ingest") == Mapping(ingest)
    requires SectionValue(c, "query") == Mapping(query)
    requires SectionValue(c, "timeouts") == Mapping(timeouts)
    requires out == map[
      LlmModel := Get(c, "llm_model"),
      EmbedModel := Get(c, "embed_model"),
      OllamaBaseUrl := Get(c, "ollama_base_url"),
      MilvusHost := Get(milvus, "host"),
      MilvusPort := Get(milvus, "port"),
      MilvusCollection := Get(milvus, "collection"),
      MilvusDim := Get(milvus, "dim"),
      DataDir := Get(ingest, "data_dir"),
      ChunkSize := Get(ingest, "chunk_size"),
      ChunkOverlap := Get(ingest, "chunk_overlap"),
      TopK := Get(query, "top_k"),
      LlmTimeout := GetOr(c, "llm_timeout", Get(timeouts, "llm")),
      EmbedTimeout := GetOr(c, "embed_timeout", Get(timeouts, "embed"))
    ]
    ensures Flattened(Mapping(c)) == Ok(map k | k in out && out[k] != Null :: out[k])
  {
    TopLevelFileValues(c);
    MilvusFileValues(c, milvus);
    IngestFileValues(c, ingest);
    QueryFileValues(c, query);
    TimeoutFileValues(c, timeouts);
    DisplayLookups(out,
      Get(c, "llm_model"),
      Get(c, "embed_model"),
      Get(c, "ollama_base_url"),
      Get(milvus, "host"),
      Get(milvus, "port"),
      Get(milvus, "collection"),
      Get(milvus, "dim"),
      Get(ingest, "data_dir"),
      Get(ingest, "chunk_size"),
      Get(ingest, "chunk_overlap"),
      Get(query, "top_k"),
      GetOr(c, "llm_timeout", Get(timeouts, "llm")),
      GetOr(c, "embed_timeout", Get(timeouts, "embed")));
    AssignedEveryField(c, out);
    DroppingNullsIsFlattened(c, out);
  }

  /** The lookups in a dict built by assigning all 13 fields. */
  lemma DisplayLookups<V>(
    out: map<Field, V>,
    v0: V,
    v1: V,
    v2: V,
    v3: V,
    v4: V,
    v5: V,
    v6: V,
    v7: V,
    v8: V,
    v9: V,
    v10: V,
    v11: V,
    v12: V
  )
    requires out == map[
      LlmModel := v0,
      EmbedModel := v1,
      OllamaBaseUrl := v2,
      MilvusHost := v3,
      MilvusPort := v4,
      MilvusCollection := v5,
      MilvusDim := v6,
      DataDir := v7,
      ChunkSize := v8,
      ChunkOverlap := v9,
      TopK := v10,
      LlmTimeout := v11,
      EmbedTimeout := v12
    ]
    ensures LlmModel in out && out[LlmModel] == v0
    ensures EmbedModel in out && out[EmbedModel] == v1
    ensures OllamaBaseUrl in out && out[OllamaBaseUrl] == v2
    ensures MilvusHost in out && out[MilvusHost] == v3
    ensures MilvusPort in out && out[MilvusPort] == v4
    ensures MilvusCollection in out && out[MilvusCollection] == v5
    ensures MilvusDim in out && out[MilvusDim] == v6
    ensures DataDir in out && out[DataDir] == v7
    ensures ChunkSize in out && out[ChunkSize] == v8
    ensures ChunkOverlap in out && out[ChunkOverlap] == v9
    ensures TopK in out && out[TopK] == v10
    ensures LlmTimeout in out && out[LlmTimeout] == v11
    ensures EmbedTimeout in out && out[EmbedTimeout] == v12
  {
  }

  lemma TopLevelFileValues(c: map<string, Value>)
    ensures FileValue(c, LlmModel) == Get(c, "llm_model")
    ensures FileValue(c, EmbedModel) == Get(c, "embed_model")
    ensures FileValue(c, OllamaBaseUrl) == Get(c, "ollama_base_url")
  {
  }

  lemma MilvusFileValues(c: map<string, Value>, milvus: map<string, Value>)
    requires SectionValue(c, "milvus") == Mapping(milvus)
    ensures FileValue(c, MilvusHost) == Get(milvus, "host")
    ensures FileValue(c, MilvusPort) == Get(milvus, "port")
    ensures FileValue(c, MilvusCollection) == Get(milvus, "collection")
    ensures FileValue(c, MilvusDim) == Get(milvus, "dim")
  {
    assert SectionEntries(c, "milvus") == milvus;
  }

  lemma IngestFileValues(c: map<string, Value>, ingest: map<string, Value>)
    requires SectionValue(c, "ingest") == Mapping(ingest)
    ensures FileValue(c, DataDir) == Get(ingest, "data_dir")
    ensures FileValue(c, ChunkSize) == Get(ingest, "chunk_size")
    ensures FileValue(c, ChunkOverlap) == Get(ingest, "chunk_overlap")
  {
    assert SectionEntries(c, "ingest") == ingest;
  }

  lemma QueryFileValues(c: map<string, Value>, query: map<string, Value>)
    requires SectionValue(c, "query") == Mapping(query)
    ensures FileValue(c, TopK) == Get(query, "top_k")
  {
    assert SectionEntries(c, "query") == query;
  }

  lemma TimeoutFileValues(c: map<string, Value>, timeouts: map<string, Value>)
    requires SectionValue(c, "timeouts") == Mapping(timeouts)
    ensures FileValue(c, LlmTimeout) == GetOr(c, "llm_timeout", Get(timeouts, "llm"))
    ensures FileValue(c, EmbedTimeout) == GetOr(c, "embed_timeout", Get(timeouts, "embed"))
  {
    assert SectionEntries(c, "timeouts") == timeouts;
  }

  lemma AssignedEveryField(c: map<string, Value>, out: map<Field, Value>)
    requires LlmModel in out && out[LlmModel] == FileValue(c, LlmModel)
    requires EmbedModel in out && out[EmbedModel] == FileValue(c, EmbedModel)
    requires OllamaBaseUrl in out && out[OllamaBaseUrl] == FileValue(c, OllamaBaseUrl)
    requires MilvusHost in out && out[MilvusHost] == FileValue(c, MilvusHost)
    requires MilvusPort in out && out[MilvusPort] == FileValue(c, MilvusPort)
    requires MilvusCollection in out && out[MilvusCollection] == FileValue(c, MilvusCollection)
    requires MilvusDim in out && out[MilvusDim] == FileValue(c, MilvusDim)
    requires DataDir in out && out[DataDir] == FileValue(c, DataDir)
    requires ChunkSize in out && out[ChunkSize] == FileValue(c, ChunkSize)
    requires ChunkOverlap in out && out[ChunkOverlap] == FileValue(c, ChunkOverlap)
    requires TopK in out && out[TopK] == FileValue(c, TopK)
    requires LlmTimeout in out && out[LlmTimeout] == FileValue(c, LlmTimeout)
    requires EmbedTimeout in out && out[EmbedTimeout] == FileValue(c, EmbedTimeout)
    ensures forall f :: f in out && out[f] == FileValue(c, f)
  {
    forall f ensures f in out && out[f] == FileValue(c, f) {
      match f
      case LlmModel =>
      case EmbedModel =>
      case OllamaBaseUrl =>
      case MilvusHost =>
      case MilvusPort =>
      case MilvusCollection =>
      case MilvusDim =>
      case DataDir =>
      case ChunkSize =>
      case ChunkOverlap =>
      case TopK =>
      case LlmTimeout =>
      case EmbedTimeout =>
    }
  }

  lemma DroppingNullsIsFlattened(c: map<string, Value>, out: map<Field, Value>)
    requires c != map[] && FirstBadSection(c, Sections).None?
    requires forall f :: f in out && out[f] == FileValue(c, f)
    ensures Flattened(Mapping(c)) == Ok(map k | k in out && out[k] != Null :: out[k])
  {
    EveryFieldListed();
    var spec := map f | f in AllFields && FileValue(c, f) != Null :: FileValue(c, f);
    var built := map k | k in out && out[k] != Null :: out[k];
    assert forall f :: f in spec <==> f in built;
    assert forall f :: f in spec ==> spec[f] == built[f];
    assert spec == built;
  }

  // ---------------------------------------------------------------------
  // Resolving

  /** `load_dotenv(override=False)`: entries of the `.env` file are added to
      the environment, and variables already set keep their value. */
  function EnvironAfterDotenv(process: map<string, string>, dotenv: map<string, string>): (env: map<string, string>)
    ensures env.Keys == process.Keys + dotenv.Keys
    ensures forall k :: k in process ==> env[k] == process[k]
    ensures forall k :: k in dotenv && k !in process ==> env[k] == dotenv[k]
  {
    dotenv + process
  }

  /** `getenv(key, default)`: an environment variable is always a string. */
  function GetEnv(env: map<string, string>, key: string, default: Value): Value {
    if key in env then Str(env[key]) else default
  }

  /** The value `getenv(ENV, yaml_cfg.get(field, Settings.field))` hands to
      the field's conversion. */
  function Raw(env: map<string, string>, flat: map<Field, Value>, f: Field): (v: Value)
    ensures EnvName(f) in env ==> v == Str(env[EnvName(f)])
    ensures EnvName(f) !in env && f in flat ==> v == flat[f]
    ensures EnvName(f) !in env && f !in flat ==> v == DefaultValue(f)
  {
    GetEnv(env, EnvName(f), if f in flat then flat[f] else DefaultValue(f))
  }

  /** `int(v)` for field `f`, with the failure tagged by the field. */
  function IntOf(f: Field, v: Value): Result<int, LoadError> {
    match ToInt(v)
    case Ok(n) => Ok(n)
    case Err(e) => Err(IntConversion(FieldName(f), e))
  }

  /** The conversion `load_settings` applies to field `f`. */
  function Coerce(f: Field, v: Value): Result<Setting, LoadError> {
    match KindOf(f)
    case TextKind => Ok(TextSetting(ToStr(v)))
    case IntKind => (match IntOf(f, v) case Ok(n) => Ok(IntSetting(n)) case Err(e) => Err(e))
    case FloatKind => Ok(TimeoutSetting(v))
  }

  /** The `Settings(...)` constructor call of `load_settings`, given the
      value `raw(f)` that each field's conversion is applied to. Arguments
      are converted left to right, so the first integer field that fails
      decides the error. */
  function Convert(raw: Field -> Value): Result<Settings, LoadError> {
    var milvusPort :- IntOf(MilvusPort, raw(MilvusPort));
    var milvusDim :- IntOf(MilvusDim, raw(MilvusDim));
    var chunkSize :- IntOf(ChunkSize, raw(ChunkSize));
    var chunkOverlap :- IntOf(ChunkOverlap, raw(ChunkOverlap));
    var topK :- IntOf(TopK, raw(TopK));
    Ok(Settings(
      ToStr(raw(LlmModel)),
      ToStr(raw(EmbedModel)),
      ToStr(raw(OllamaBaseUrl)),
      ToStr(raw(MilvusHost)),
      milvusPort,
      ToStr(raw(MilvusCollection)),
      milvusDim,
      ToStr(raw(DataDir)),
      chunkSize,
      chunkOverlap,
      topK,
      raw(LlmTimeout),
      raw(EmbedTimeout)
    ))
  }

  /** The settings `load_settings` builds from the environment and the
      flattened file. */
  function Resolve(env: map<string, string>, flat: map<Field, Value>): Result<Settings, LoadError> {
    Convert(f => Raw(env, flat, f))
  }

  /** `load_settings(config_path)`, with the process environment, the `.env`
      file and the file system given as maps. A document that `_flatten`
      rejects fails the call before any field is converted, even when the
      environment sets every field; otherwise the call succeeds exactly when
      every field's conversion does, and each field is the conversion of its
      raw value. */
  function LoadSettings(
    process: map<string, string>,
    dotenv: map<string, string>,
    configPath: Option<string>,
    files: map<string, Value>
  ): (r: Result<Settings, LoadError>)
    ensures var flat := Flattened(ReadYaml(configPath, files));
      flat.Err? ==> r == Err(flat.error)
    ensures var flat := Flattened(ReadYaml(configPath, files));
      var env := EnvironAfterDotenv(process, dotenv);
      flat.Ok? ==> (r.Ok? <==> forall f :: Coerce(f, Raw(env, flat.value, f)).Ok?)
    ensures var flat := Flattened(ReadYaml(configPath, files));
      var env := EnvironAfterDotenv(process, dotenv);
      r.Ok? ==> flat.Ok? && forall f :: Coerce(f, Raw(env, flat.value, f)) == Ok(Project(r.value, f))
  {
    var env := EnvironAfterDotenv(process, dotenv);
    var flat := Flattened(ReadYaml(configPath, files));
    if flat.Err? then Err(flat.error)
    else
      ResolveFieldwise(env, flat.value);
      Resolve(env, flat.value)
  }


  // ---------------------------------------------------------------------
  // Properties of resolution

  /** Every field's conversion succeeds exactly when the constructor call
      does, and then each field of the result is the conversion of its raw
      value. */
  lemma ConvertFieldwise(raw: Field -> Value)
    ensures Convert(raw).Ok? <==> forall f :: Coerce(f, raw(f)).Ok?
    ensures Convert(raw).Ok? ==> forall f :: Coerce(f, raw(f)) == Ok(Project(Convert(raw).value, f))
  {
    var r := Convert(raw);
    if r.Ok? {
      forall f ensures Coerce(f, raw(f)) == Ok(Project(r.value, f)) {
        match f
        case LlmModel =>
        case EmbedModel =>
        case OllamaBaseUrl =>
        case MilvusHost =>
        case MilvusPort =>
        case MilvusCollection =>
        case MilvusDim =>
        case DataDir =>
        case ChunkSize =>
        case ChunkOverlap =>
        case TopK =>
        case LlmTimeout =>
        case EmbedTimeout =>
      }
    } else {
      var f :=
        if IntOf(MilvusPort, raw(MilvusPort)).Err? then MilvusPort
        else if IntOf(MilvusDim, raw(MilvusDim)).Err? then MilvusDim
        else if IntOf(ChunkSize, raw(ChunkSize)).Err? then ChunkSize
        else if IntOf(ChunkOverlap, raw(ChunkOverlap)).Err? then ChunkOverlap
        else TopK;
      assert Coerce(f, raw(f)).Err?;
    }
  }

  /** `ConvertFieldwise` for the raw values that `Resolve` hands over. */
  lemma ResolveFieldwise(env: map<string, string>, flat: map<Field, Value>)
    ensures Resolve(env, flat).Ok? <==> forall f :: Coerce(f, Raw(env, flat, f)).Ok?
    ensures Resolve(env, flat).Ok? ==>
              forall f :: Coerce(f, Raw(env, flat, f)) == Ok(Project(Resolve(env, flat).value, f))
  {
    var raw := g => Raw(env, flat, g);
    ConvertFieldwise(raw);
    assert forall f :: raw(f) == Raw(env, flat, f);
  }

  /** When several integer fields fail, the error names the first of them in
      the order of the `Settings(...)` arguments. */
  lemma ConvertReportsFirstFailure(raw: Field -> Value, i: nat)
    requires i < |AllFields| && Coerce(AllFields[i], raw(AllFields[i])).Err?
    requires forall j :: 0 <= j < i ==> Coerce(AllFields[j], raw(AllFields[j])).Ok?
    ensures Convert(raw) == Err(Coerce(AllFields[i], raw(AllFields[i])).error)
  {
    var failing := AllFields[i];
    OnlyIntFieldsFail(failing, raw(failing));
    IntFieldPositions(i);
    IntCoercion(failing, raw(failing));
    if i > 4 {
      assert Coerce(AllFields[4], raw(AllFields[4])).Ok?;
      IntCoercion(AllFields[4], raw(AllFields[4]));
    }
    if i > 6 {
      assert Coerce(AllFields[6], raw(AllFields[6])).Ok?;
      IntCoercion(AllFields[6], raw(AllFields[6]));
    }
    if i > 8 {
      assert Coerce(AllFields[8], raw(AllFields[8])).Ok?;
      IntCoercion(AllFields[8], raw(AllFields[8]));
    }
    if i > 9 {
      assert Coerce(AllFields[9], raw(AllFields[9])).Ok?;
      IntCoercion(AllFields[9], raw(AllFields[9]));
    }
    FirstIntFailure(raw, failing);
  }

  /** Only the conversion of an integer field can fail. */
  lemma OnlyIntFieldsFail(f: Field, v: Value)
    requires Coerce(f, v).Err?
    ensures KindOf(f) == IntKind
  {
  }

  /** Where the integer fields stand in `AllFields`. */
  lemma IntFieldPositions(i: nat)
    requires i < |AllFields| && KindOf(AllFields[i]) == IntKind
    ensures i in {4, 6, 8, 9, 10}
    ensures AllFields[4] == MilvusPort && AllFields[6] == MilvusDim && AllFields[8] == ChunkSize
    ensures AllFields[9] == ChunkOverlap && AllFields[10] == TopK
  {
  }

  lemma IntCoercion(f: Field, v: Value)
    requires KindOf(f) == IntKind
    ensures Coerce(f, v).Ok? <==> IntOf(f, v).Ok?
    ensures Coerce(f, v).Err? ==> Coerce(f, v).error == IntOf(f, v).error
  {
  }

  /** `Convert` stops at the first integer field whose `int()` fails. */
  lemma FirstIntFailure(raw: Field -> Value, failing: Field)
    requires failing in {MilvusPort, MilvusDim, ChunkSize, ChunkOverlap, TopK}
    requires IntOf(failing, raw(failing)).Err?
    requires failing != MilvusPort ==> IntOf(MilvusPort, raw(MilvusPort)).Ok?
    requires failing !in {MilvusPort, MilvusDim} ==> IntOf(MilvusDim, raw(MilvusDim)).Ok?
    requires failing in {ChunkOverlap, TopK} ==> IntOf(ChunkSize, raw(ChunkSize)).Ok?
    requires failing == TopK ==> IntOf(ChunkOverlap, raw(ChunkOverlap)).Ok?
    ensures Convert(raw) == Err(IntOf(failing, raw(failing)).error)
  {
  }

  /** Settings that agree on every field are equal. */
  lemma SettingsByFields(s: Settings, t: Settings)
    requires forall f :: Project(s, f) == Project(t, f)
    ensures s == t
  {
    assert Project(s, LlmModel) == Project(t, LlmModel);
    assert Project(s, EmbedModel) == Project(t, EmbedModel);
    assert Project(s, OllamaBaseUrl) == Project(t, OllamaBaseUrl);
    assert Project(s, MilvusHost) == Project(t, MilvusHost);
    assert Project(s, MilvusPort) == Project(t, MilvusPort);
    assert Project(s, MilvusCollection) == Project(t, MilvusCollection);
    assert Project(s, MilvusDim) == Project(t, MilvusDim);
    assert Project(s, DataDir) == Project(t, DataDir);
    assert Project(s, ChunkSize) == Project(t, ChunkSize);
    assert Project(s, ChunkOverlap) == Project(t, ChunkOverlap);
    assert Project(s, TopK) == Project(t, TopK);
    assert Project(s, LlmTimeout) == Project(t, LlmTimeout);
    assert Project(s, EmbedTimeout) == Project(t, EmbedTimeout);
  }

  /** The conversion of a field's default is the default itself. */
  lemma DefaultsConvert(f: Field)
    ensures Coerce(f, DefaultValue(f)) == Ok(Project(Defaults, f))
  {
  }

  /** For each field of a successful load: a variable of the process
      environment wins, then one from the `.env` file, then the value the
      file gives, and only then the dataclass default. */
  lemma Precedence(
    process: map<string, string>,
    dotenv: map<string, string>,
    configPath: Option<string>,
    files: map<string, Value>,
    f: Field
  )
    ensures var loaded := LoadSettings(process, dotenv, configPath, files);
      loaded.Ok? ==>
        var s := loaded.value;
        var doc := ReadYaml(configPath, files);
        var key := EnvName(f);
        && doc.Mapping?
        && (key in process ==> Coerce(f, Str(process[key])) == Ok(Project(s, f)))
        && (key !in process && key in dotenv ==> Coerce(f, Str(dotenv[key])) == Ok(Project(s, f)))
        && (key !in process && key !in dotenv && FileValue(doc.m, f) != Null ==>
              Coerce(f, FileValue(doc.m, f)) == Ok(Project(s, f)))
        && (key !in process && key !in dotenv && FileValue(doc.m, f) == Null ==>
              Project(s, f) == Project(Defaults, f))
  {
    if LoadSettings(process, dotenv, configPath, files).Ok? {
      var env := EnvironAfterDotenv(process, dotenv);
      var doc := ReadYaml(configPath, files);
      var flat := Flattened(doc).value;
      var raw := g => Raw(env, flat, g);
      ConvertFieldwise(raw);
      assert Coerce(f, raw(f)) == Ok(Project(Convert(raw).value, f));
      DefaultsConvert(f);
    }
  }

  /** With no variable set for any field and no usable file, loading gives
      the dataclass defaults. */
  lemma DefaultsWhenNothingConfigured(
    process: map<string, string>,
    dotenv: map<string, string>,
    configPath: Option<string>,
    files: map<string, Value>
  )
    requires forall f :: EnvName(f) !in process && EnvName(f) !in dotenv
    requires configPath.None? || configPath == Some("") || configPath.value !in files
             || !Truthy(files[configPath.value])
    ensures LoadSettings(process, dotenv, configPath, files) == Ok(Defaults)
  {
    var env := EnvironAfterDotenv(process, dotenv);
    assert Flattened(ReadYaml(configPath, files)) == Ok(map[]);
    var raw := f => Raw(env, map[], f);
    forall f ensures Coerce(f, raw(f)) == Ok(Project(Defaults, f)) {
      assert EnvName(f) !in env;
      DefaultsConvert(f);
    }
    ConvertFieldwise(raw);
    SettingsByFields(Convert(raw).value, Defaults);
  }

  /** An integer field whose variable, set in the process or in `.env`,
      holds a character other than an ASCII digit, whitespace, `_` or a sign
      makes loading fail: there is no silent fallback to the file or the
      default. */
  lemma NonNumericVariableFails(
    process: map<string, string>,
    dotenv: map<string, string>,
    configPath: Option<string>,
    files: map<string, Value>,
    f: Field,
    i: nat
  )
    requires KindOf(f) == IntKind && EnvName(f) in EnvironAfterDotenv(process, dotenv)
    requires var v := EnvironAfterDotenv(process, dotenv)[EnvName(f)];
      i < |v| && !IsSpace(v[i]) && !IsDigit(v[i]) && v[i] != '_' && v[i] != '+' && v[i] != '-'
    ensures LoadSettings(process, dotenv, configPath, files).Err?
  {
    var v := EnvironAfterDotenv(process, dotenv)[EnvName(f)];
    ForeignCharFails(f, v, i);
    var flat := Flattened(ReadYaml(configPath, files));
    if flat.Ok? {
      assert Raw(EnvironAfterDotenv(process, dotenv), flat.value, f) == Str(v);
    }
  }

  /** `int()` of a string with a foreign character fails for an integer
      field. */
  lemma ForeignCharFails(f: Field, v: string, i: nat)
    requires KindOf(f) == IntKind && i < |v| && !LiteralChar(v[i])
    ensures Coerce(f, Str(v)).Err?
  {
    assert ParseInt(v) == None;
  }

  lemma ConversionFailureFails(raw: Field -> Value, f: Field)
    requires Coerce(f, raw(f)).Err?
    ensures Convert(raw).Err?
  {
    ConvertFieldwise(raw);
  }
}
