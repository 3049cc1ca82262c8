# rag-poc: settings resolution and query result shaping

rag-poc is a small retrieval-augmented generation service. It reads documents
into a Milvus collection and answers questions with a local Ollama model.
Chunking, embedding, retrieval and answering are all delegated to
llama_index, Milvus and Ollama. This project models the two pieces of logic
the repository implements itself, and proves properties about them.

- **Settings resolution** (`src/rag_poc/config.py`), in `values.dfy`,
  `builtins.dfy` and `config.dfy`.
  - The `Settings` dataclass and its defaults.
  - `_read_yaml`, as "no path, missing file or empty file gives `{}`".
  - `_flatten`, which turns the nested YAML document into a dict keyed by the
    13 field names. It is modelled twice: as the function `Flattened`, and as
    the method `Flatten`, which builds the dict by successive assignments
    as the code does and is proved equal to `Flattened`.
  - `load_settings`, which resolves each field as environment variable, else
    flattened file value, else dataclass default. Integer fields then go
    through `int(...)` and text fields through `str(...)`.
  - The Python semantics that resolution relies on: truthiness, `or`,
    `dict.get` (whose default argument is always evaluated), `int()` on
    strings, booleans and floats, and `str()` of strings, integers,
    booleans and `None`.
- **Query result shaping** (`src/rag_poc/pipeline.py`), in `pipeline.dfy`.
  - The effective `top_k` (`top_k or settings.top_k`).
  - The loop that turns the engine's `source_nodes` into `sources` records.
  - The dict that `query` returns.
  - The count that `ingest` returns.

The environment, the `.env` file and the file system are inputs: three maps.
The first two map variable names to strings. The file system maps each
existing path to the value `yaml.safe_load` parses that file to, limited to
null, booleans, integers, floats, strings, lists and string-keyed mappings. The document
reader and the query engine are function parameters.

Errors are the `LoadError` datatype, with one constructor for each modelled
way of failing:

- `DocumentNotADict` and `SectionNotADict`: the `AttributeError` raised when
  `.get` is called on a document or on a section that is not a dict.
- `IntConversion`: the `ValueError` or `TypeError` raised by `int(...)`,
  told apart by its `IntFailure`.

The exceptions of `float(...)`, of YAML parsing and of file reading have no
constructor; see "Left out".

## Model

| member | source | states |
|---|---|---|
| `Config.EveryFieldListed` | src/rag_poc/config.py:13-35 | the list of fields (in the declaration order, which the first-failure lemma relies on) has 13 distinct entries and contains every field |
| `Config.DefaultsConvert` | src/rag_poc/config.py:13-35 | converting a field's class default with that field's `str`/`int` conversion gives the default back |
| `Config.ReadYaml` | src/rag_poc/config.py:38-45 | no path, an empty path or a nonexistent file gives `{}`; an existing file whose document is empty (null) or otherwise falsy gives `{}`; a truthy document is returned as parsed; the result is always truthy or `{}` |
| `Config.Flattened` | src/rag_poc/config.py:48-76 | a falsy document gives `{}`; a truthy non-dict document fails; a truthy non-dict section fails, naming the first such section in reading order; on success no value is None, a field is present exactly when the document gives it a non-None value, and that value is the one the document gives |
| `Config.Flatten` | src/rag_poc/config.py:48-76 | building the dict by one assignment per field, section by section, with early failure on a non-dict section and the None filter at the end, gives exactly `Flattened` |
| `Config.NestedFieldFromSection` | src/rag_poc/config.py:57-69 | a field read from a section (`milvus.host` to `milvus_host`, `ingest.chunk_size` to `chunk_size`, `query.top_k` to `top_k`, and so on) is absent when the section is missing, null or otherwise falsy, and is present exactly when the section gives its key a non-null value, with that value |
| `Config.TopLevelTimeoutWins` | src/rag_poc/config.py:71-76 | a top-level `llm_timeout`/`embed_timeout` key that is present decides the timeout, even when null (the field is then dropped); `timeouts.llm`/`timeouts.embed` is used only when the top-level key is absent |
| `Config.EnvironAfterDotenv` | src/rag_poc/config.py:81 | after `load_dotenv(override=False)` the environment holds the variables of both sources, and one already set in the process keeps its value |
| `Config.Raw` | src/rag_poc/config.py:87-91 | the value handed to a field's conversion is the environment variable if set, else the flattened file value if present, else the class default |
| `Config.ConvertFieldwise` | src/rag_poc/config.py:90-131 | the `Settings(...)` call succeeds exactly when every field's conversion succeeds, and then each field equals the conversion of its raw value |
| `Config.ResolveFieldwise` | src/rag_poc/config.py:87-131 | what `Config.ConvertFieldwise` states, for the raw values chosen by environment, file and default: success exactly when every field's conversion of its `Raw` value succeeds, and each field is then that conversion |
| `Config.ConvertReportsFirstFailure` | src/rag_poc/config.py:90-131 | when conversions fail, the error is that of the first failing field in argument order |
| `Config.ConversionFailureFails` | src/rag_poc/config.py:90-131 | one failing conversion makes the whole call fail |
| `Config.LoadSettings` | src/rag_poc/config.py:79-131 | a document that `_flatten` rejects fails the call before any conversion, even when the environment sets every field; otherwise the call succeeds exactly when every field's conversion succeeds, and each field of the result is the conversion of its raw value |
| `Config.Precedence` | src/rag_poc/config.py:79-131 | for every field of a successful load, the process environment wins, then the `.env` file, then the value the YAML document gives, and only then the class default |
| `Config.DefaultsWhenNothingConfigured` | src/rag_poc/config.py:79-131 | with no variable set for any field and no path, an empty path, a missing file or an empty file, the result is exactly the dataclass defaults |
| `Config.NonNumericVariableFails` | src/rag_poc/config.py:103-122 | an integer field whose variable, from the process or from `.env`, contains a character outside ASCII digits, whitespace, `_` and signs makes loading fail; there is no fallback to the file or the default |
| `Builtins.ToInt` | src/rag_poc/config.py:103-122 | `int()` keeps integers, maps booleans to 1/0, truncates floats, accepts a string with the value `ParseInt` gives it, `ValueError` exactly when `ParseInt` rejects it (so, by `Builtins.ParseIntOfLiteral` and `Builtins.ParseIntOnlyOfLiteral`, exactly the integer literals are accepted), and raises `TypeError` on None, lists and dicts |
| `Builtins.Truncate` | src/rag_poc/config.py:103-122 | `int()` of a float rounds toward zero |
| `Builtins.Strip` | src/rag_poc/config.py:103-122 | the whitespace that `int()` ignores is removed from both ends: the result is empty only for an all-whitespace string, and otherwise it is exactly the characters between the leading and the trailing whitespace, in place |
| `Builtins.ParseInt` | src/rag_poc/config.py:103-122 | `int()` of a string accepts only strings made of whitespace, digits, `_` and signs, and a negative result comes from a leading `-` after the whitespace |
| `Builtins.ParseIntOnlyOfLiteral` | src/rag_poc/config.py:103-122 | every string `int()` accepts is whitespace, an optional `+` or `-`, a digit string and whitespace; strings such as `"++5"`, `"1 2"`, `"5-"`, `"1__0"` and `"_1"` raise `ValueError` |
| `Builtins.ParseIntOfLiteral` | src/rag_poc/config.py:103-122 | conversely, `int()` accepts every literal of digits (single `_` between digits allowed) with an optional `+` or `-` and any surrounding whitespace, such as `" 19530\n"` or `"+5"`, and gives the digits' value with the sign applied |
| `Builtins.StripPadded` | src/rag_poc/config.py:103-122 | the whitespace `int()` skips around a literal is exactly what is removed |
| `Builtins.ParseIntOfDecimal` | src/rag_poc/config.py:103-122 | `int(str(n)) == n` for every integer `n` (Python's limit on the number of digits is not modelled) |
| `Builtins.ToStr` | src/rag_poc/config.py:91-115 | `str()` keeps a string; renders an integer canonically (no `+`, a leading `-` exactly for negatives, no leading zero) as a literal that `int()` reads back as the same integer; renders booleans as `True`/`False` and None as `None` |
| `Pipeline.Ingest` | src/rag_poc/pipeline.py:17-34 | the report has the single key `documents`, whose value is the number of documents loaded from `data_dir`, not the number of chunks |
| `Pipeline.EffectiveTopK` | src/rag_poc/pipeline.py:46 | a non-None, non-zero override is used; None or 0 falls back to `settings.top_k` |
| `Pipeline.EffectiveTopKIsOr` | src/rag_poc/pipeline.py:46 | the effective value is Python's `top_k or settings.top_k` |
| `Pipeline.BuildSources` | src/rag_poc/pipeline.py:49-57 | one record per node, in the engine's order, with text and score copied and metadata defaulted (None becomes `{}`, a dict is kept); the list is empty exactly when the nodes are missing, None or empty |
| `Pipeline.SourcesUnique` | src/rag_poc/pipeline.py:49-57 | the nodes determine the records: the relation that `BuildSources` satisfies has a single solution |
| `Pipeline.Query` | src/rag_poc/pipeline.py:37-59 | the engine is asked with the effective `top_k`; the result has exactly the keys `answer` and `sources`, holding the response text and the records built from its nodes |

## Left out

- YAML parsing and file reading (`yaml.safe_load`, `Path.exists`, `open`) are I/O. Their outcome is an input map from existing paths to parsed documents. Unreadable files, YAML syntax errors, non-string mapping keys and `os.PathLike` paths are not modelled.
- `Values.Value` cannot hold some values `yaml.safe_load` can produce. A file that puts one of them in a field is not modelled:
  - the non-finite floats `.inf` and `-.inf`, on which `int()` raises `OverflowError`, and `.nan`, on which it raises `ValueError` (for example `milvus: {port: .inf}`);
  - dates and timestamps (an unquoted `2024-01-01`);
  - `bytes` (`!!binary`);
  - sets (`!!set`).
- `load_dotenv` parses `.env` and writes `os.environ`, which is I/O and global state. The model takes the parsed `.env` entries and the process environment as two maps and merges them the way `override=False` does.
- `Config.ConvertFieldwise`: the model does not raise on timeouts that `float(...)` rejects, because the float conversion of `llm_timeout`/`embed_timeout` is left out. `Settings` keeps the raw value that `float()` would receive.
- `Config.ResolveFieldwise`, `Config.LoadSettings` and `Config.Precedence`: for the same reason, "succeeds exactly when every field's conversion succeeds" counts only the `str` and `int` conversions. `LLM_TIMEOUT="abc"` raises `ValueError` in Python but loads in the model.
- `Builtins.ToStr`: `str()` of a float, a list or a dict is not rendered; the value is kept as `Unrendered`. Python's float and container formatting is out of scope.
- `Builtins.ToInt`: `int()` here accepts only ASCII digits. Python also accepts other Unicode decimal digits. The model has no limit on the length of an integer string. Python raises `ValueError` for more than 4300 digits, so such a `CHUNK_SIZE` fails in Python but loads in the model. The whitespace `int()` strips is modelled: ASCII `\t \n \v \f \r` and space, and the non-ASCII characters Python counts as whitespace.
- `Builtins.ParseIntOfDecimal`: holds in the model for integers of any length. Python's `str()` raises `ValueError` for an integer of more than 4300 digits.
- Floats (YAML floats, node scores) are modelled as finite, unbounded reals: no rounding, no infinities, no NaN. Scores are only copied.
- `Pipeline.Ingest`: the effect of writing the documents into the vector store is not modelled. Reading (`SimpleDirectoryReader`), splitting (`SentenceSplitter`) and indexing (`VectorStoreIndex`, `get_vector_store`, `get_embed_model`) are library calls. The reader is a function parameter; the rest are left out.
- `Pipeline.Query`: building the index and the query engine (`get_llm`, `VectorStoreIndex.from_vector_store`, `as_query_engine`) and answering are library calls. They are one function parameter from the effective `top_k` and the question to the response. `str(resp)` is taken to be the response's answer text.
- The flattened dict is keyed by the `Field` datatype rather than by strings. Its keys are always the 13 attribute names, and `FieldName` gives each field's name.
- `src/rag_poc/vector.py` is not part of this model: it only builds constant index parameters and a URI and calls the Milvus adapter.
- `src/rag_poc/llm.py` is not part of this model: it holds thin Ollama constructors. It ignores `llm_timeout` in favour of a hard-coded 180 seconds at line 18, and passes no timeout at all to `OllamaEmbedding` at line 28, so `embed_timeout` is unused as well.
- `src/app.py` is not part of this model: it is HTTP routing. It imports `query_sources_only`, which `pipeline.py` does not define.
- `scripts/` and `src/rag_poc/logging_utils.py` are command-line I/O and global logging set-up.

## Other facts about the code

- The code defines no `ConfigError`: loading raises built-in exceptions.
- `query` does not validate the question or `top_k`: an empty question reaches the engine as it is, and a negative `top_k` becomes its `similarity_top_k`.
- The code makes no dimension check of its own: `milvus_dim` is only passed on to the vector store (`src/rag_poc/vector.py:46`).
- The result of `query` has no timing field, and there is no sources-only query mode.
- Chunking is left to `SentenceSplitter`; the repository has no chunker of its own.
- Configuration loading also fails when the document or a section is truthy but not a dict. That failure is modelled, not only the failure of a value that cannot be converted.
- Configuration loading changes global state through `load_dotenv`; the model takes that state as its input maps.
