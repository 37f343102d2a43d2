/**
  `ValidationService`: per-endpoint JSON-schema validation with a strict or
  permissive policy for a missing schema, schema files chosen by endpoint
  with a `default.json` fallback, and a cache keyed by path that is reused
  while the file's last-write time has not moved past the cached one.

  The file system is a map from path to (content, last-write time); paths
  follow Unix rules. A loaded schema is identified by its source text, and
  the schema checker is a parameter returning the list of violations.
 */
module Validation {

  import opened Wrappers
  import opened Text
  import opened Config

  // ---------------------------------------------------------------------------
  // Paths
  // ---------------------------------------------------------------------------

  predicate IsPathRooted(p: string)
  {
    |p| > 0 && p[0] == '/'
  }

  /** `Path.Combine(a, b)`. */
  function Combine(a: string, b: string): string
  {
    if |b| == 0 then a
    else if |a| == 0 then b
    else if IsPathRooted(b) then b
    else if a[|a| - 1] == '/' then a + b
    else a + "/" + b
  }

  /** `GetValidationDirectory`: a rooted base path as is, otherwise under the app's base directory. */
  function ValidationDirectory(options: ValidationOptions, appBaseDirectory: string): (dir: string)
    ensures IsPathRooted(options.basePath) ==> dir == options.basePath
    ensures !IsPathRooted(options.basePath) ==> dir == Combine(appBaseDirectory, options.basePath)
  {
    if IsPathRooted(options.basePath) then options.basePath else Combine(appBaseDirectory, options.basePath)
  }

  // ---------------------------------------------------------------------------
  // Files, schemas, results
  // ---------------------------------------------------------------------------

  datatype FileEntry = FileEntry(content: string, lastWrite: int)

  type Files = map<string, FileEntry>

  class FileSystem {
    var files: Files

    constructor (files: Files)
      ensures this.files == files
    {
      this.files := files;
    }

    /** `File.WriteAllTextAsync`, stamped with the clock's `now`. */
    method WriteAllText(path: string, content: string, now: int)
      modifies this
      ensures files == old(files)[path := FileEntry(content, now)]
    {
      files := files[path := FileEntry(content, now)];
    }
  }

  /** A loaded JSON schema, identified by the text it was loaded from. */
  datatype Schema = Schema(source: string)

  datatype CacheEntry = CacheEntry(schema: Schema, lastWrite: int)

  type Cache = map<string, CacheEntry>

  /** The schema checker: the violations of a payload (as JSON text) against a schema. */
  type SchemaChecker = (Schema, string) -> seq<string>

  datatype ValidationResult = ValidationResult(isValid: bool, error: Option<string>)

  const StrictMode := "strict"
  const SchemaNotFoundError := "Validation schema not found for endpoint"
  const DefaultSchemaFile := "default.json"

  function SchemaFile(endpoint: string): string
  {
    endpoint + ".json"
  }

  /** The schema file that applies: the endpoint's own, else `default.json`, else none. */
  function SelectSchemaPath(files: Files, dir: string, endpoint: string): (p: Option<string>)
    ensures p.Some? ==> p.value in files
    ensures Combine(dir, SchemaFile(endpoint)) in files ==> p == Some(Combine(dir, SchemaFile(endpoint)))
    ensures Combine(dir, SchemaFile(endpoint)) !in files ==>
      p == if Combine(dir, DefaultSchemaFile) in files then Some(Combine(dir, DefaultSchemaFile)) else None
  {
    var endpointPath := Combine(dir, SchemaFile(endpoint));
    var defaultPath := Combine(dir, DefaultSchemaFile);
    if endpointPath in files then Some(endpointPath)
    else if defaultPath in files then Some(defaultPath)
    else None
  }

  /** The schema the files currently hold for an endpoint. */
  function CurrentSchema(files: Files, dir: string, endpoint: string): Option<Schema>
  {
    match SelectSchemaPath(files, dir, endpoint)
    case None => None
    case Some(p) => Some(Schema(files[p].content))
  }

  /**
    `LoadSchemaAsync` as a value: the schema returned and the cache after.
    A cached entry is reused when its time is not older than the file's;
    otherwise the file is loaded and the entry overwritten.
   */
  function LoadStep(cache: Cache, files: Files, dir: string, endpoint: string): (Option<Schema>, Cache)
  {
    match SelectSchemaPath(files, dir, endpoint)
    case None => (None, cache)
    case Some(p) =>
      var lastWrite := files[p].lastWrite;
      if p in cache && cache[p].lastWrite >= lastWrite then (Some(cache[p].schema), cache)
      else (Some(Schema(files[p].content)), cache[p := CacheEntry(Schema(files[p].content), lastWrite)])
  }

  /**
    The cache agrees with the files: an entry that is still considered
    fresh holds the schema of the file's current content.
   */
  ghost predicate Coherent(cache: Cache, files: Files)
  {
    forall p :: p in cache && p in files && cache[p].lastWrite >= files[p].lastWrite ==>
      cache[p].schema == Schema(files[p].content)
  }

  /** While the cache is coherent it is invisible: loading yields the current schema and keeps it coherent. */
  lemma CoherentLoadIsCurrent(cache: Cache, files: Files, dir: string, endpoint: string)
    requires Coherent(cache, files)
    ensures LoadStep(cache, files, dir, endpoint).0 == CurrentSchema(files, dir, endpoint)
    ensures Coherent(LoadStep(cache, files, dir, endpoint).1, files)
  {
  }

  /**
    Saving a schema invalidates its cache entry, so the cache stays coherent
    and the next load for that endpoint yields the saved schema.
   */
  lemma SaveThenLoad(cache: Cache, files: Files, dir: string, endpoint: string, raw: string, now: int)
    requires Coherent(cache, files)
    ensures var p := Combine(dir, SchemaFile(endpoint));
      var files' := files[p := FileEntry(raw, now)];
      && Coherent(cache - {p}, files')
      && LoadStep(cache - {p}, files', dir, endpoint).0 == Some(Schema(raw))
  {
    var p := Combine(dir, SchemaFile(endpoint));
    var files' := files[p := FileEntry(raw, now)];
    assert Coherent(cache - {p}, files');
    CoherentLoadIsCurrent(cache - {p}, files', dir, endpoint);
  }

  /** The `ValidateAsync` decision for the schema found (if any) and the checker's violations. */
  function Verdict(mode: string, schema: Option<Schema>, errors: seq<string>): (r: ValidationResult)
    ensures r.isValid <==> r.error == None
    ensures r.isValid <==> (schema.None? && !EqualsIgnoreCase(mode, StrictMode)) || (schema.Some? && errors == [])
    ensures schema.None? && !r.isValid ==> r.error == Some(SchemaNotFoundError)
    ensures schema.Some? && !r.isValid ==> r.error == Some(Join("; ", errors))
  {
    match schema
    case None =>
      if EqualsIgnoreCase(mode, StrictMode) then ValidationResult(false, Some(SchemaNotFoundError))
      else ValidationResult(true, None)
    case Some(_) =>
      if |errors| == 0 then ValidationResult(true, None)
      else ValidationResult(false, Some(Join("; ", errors)))
  }

  /**
    Under the default options a missing schema is no error, and schemas are
    looked up in `validations` under the app's base directory.
   */
  lemma DefaultValidation(appBaseDirectory: string)
    requires appBaseDirectory != []
    ensures Verdict(DefaultValidationOptions.mode, None, []) == ValidationResult(true, None)
    ensures ValidationDirectory(DefaultValidationOptions, appBaseDirectory)
            == (if appBaseDirectory[|appBaseDirectory| - 1] == '/' then appBaseDirectory + "validations"
                else appBaseDirectory + "/validations")
  {
    assert !EqualsIgnoreCase("permissive", StrictMode) by {
      assert |"permissive"| != |StrictMode|;
    }
  }

  function Violations(checker: SchemaChecker, schema: Option<Schema>, payload: string): seq<string>
  {
    match schema
    case None => []
    case Some(s) => checker(s, payload)
  }

  class ValidationService {
    const options: ValidationOptions
    const appBaseDirectory: string
    var cache: Cache

    constructor (options: ValidationOptions, appBaseDirectory: string)
      ensures this.options == options && this.appBaseDirectory == appBaseDirectory
      ensures cache == map[]
    {
      this.options := options;
      this.appBaseDirectory := appBaseDirectory;
      cache := map[];
    }

    function Directory(): string
    {
      ValidationDirectory(options, appBaseDirectory)
    }

    /** `LoadSchemaAsync`: reads through the cache and refreshes it in place. */
    method LoadSchema(fs: FileSystem, endpoint: string) returns (schema: Option<Schema>)
      modifies this
      ensures (schema, cache) == LoadStep(old(cache), fs.files, Directory(), endpoint)
    {
      var path := SelectSchemaPath(fs.files, Directory(), endpoint);
      if path.None? {
        return None;
      }
      var targetPath := path.value;
      var lastWrite := fs.files[targetPath].lastWrite;
      if targetPath in cache && cache[targetPath].lastWrite >= lastWrite {
        return Some(cache[targetPath].schema);
      }
      var loaded := Schema(fs.files[targetPath].content);
      cache := cache[targetPath := CacheEntry(loaded, lastWrite)];
      schema := Some(loaded);
    }

    /** `ValidateAsync`: load the schema, then decide. */
    method Validate(fs: FileSystem, endpoint: string, payload: string, checker: SchemaChecker)
      returns (r: ValidationResult)
      modifies this
      ensures var (schema, cache') := LoadStep(old(cache), fs.files, Directory(), endpoint);
        cache == cache' && r == Verdict(options.mode, schema, Violations(checker, schema, payload))
    {
      var schema := LoadSchema(fs, endpoint);
      if schema.None? {
        if EqualsIgnoreCase(options.mode, StrictMode) {
          return ValidationResult(false, Some(SchemaNotFoundError));
        }
        return ValidationResult(true, None);
      }
      var errors := checker(schema.value, payload);
      if |errors| == 0 {
        return ValidationResult(true, None);
      }
      r := ValidationResult(false, Some(Join("; ", errors)));
    }

    /** `SaveSchemaAsync`: write `<endpoint>.json` and drop exactly that path from the cache. */
    method SaveSchema(fs: FileSystem, endpoint: string, rawSchema: string, now: int)
      modifies this, fs
      ensures fs.files == old(fs.files)[Combine(Directory(), SchemaFile(endpoint)) := FileEntry(rawSchema, now)]
      ensures cache == old(cache) - {Combine(Directory(), SchemaFile(endpoint))}
    {
      var targetPath := Combine(Directory(), SchemaFile(endpoint));
      fs.WriteAllText(targetPath, rawSchema, now);
      cache := cache - {targetPath};
    }
  }
}
