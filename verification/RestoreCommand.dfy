/** internal/postgres/restore.go: the `pg_restore` command line, and a reader of it. */
module RestoreCommand {
  import opened Types
  import opened Text

  datatype DatabaseFilter = DatabaseFilter(include_: seq<string>, exclude: seq<string>)

  datatype Options = Options(
    dropExisting: bool, dataOnly: bool, schemaOnly: bool,
    parallel: int, timeout: string, filter: Option<DatabaseFilter>)

  datatype Backup = Backup(
    kind: string, walStart: string, walEnd: string, storage: string, config: map<string, string>)

  predicate Supported(backup: Backup) {
    backup.kind == "logical" || backup.kind == "physical"
  }

  /** Whether `AddBackupVolumeToJob` accepts the backup's storage. */
  predicate Mountable(backup: Backup) {
    if backup.storage == "local" then "pvcName" in backup.config && backup.config["pvcName"] != ""
    else backup.storage == "s3"
  }

  // ---- Words of a command line ----

  /** The keys of the command line; `Other` stands for any text that is none of them. */
  datatype Key = PgRestore | Host | Port | Username | DbName | Format | File | Directory | DropFirst
               | DataOnly | SchemaOnly | Jobs | Timeout | ExcludeDatabase | WalStart | WalEnd | Other

  function Name(k: Key): string {
    match k
    case PgRestore => "pg_restore"
    case Host => "--host"
    case Port => "--port"
    case Username => "--username"
    case DbName => "--dbname"
    case Format => "--format"
    case File => "--file"
    case Directory => "--directory"
    case DropFirst => "--clean"
    case DataOnly => "--data-only"
    case SchemaOnly => "--schema-only"
    case Jobs => "--jobs"
    case Timeout => "--timeout"
    case ExcludeDatabase => "--exclude-database"
    case WalStart => "--wal-start"
    case WalEnd => "--wal-end"
    case Other => ""
  }

  function KeyNamed(s: string): Key {
    if s == Name(PgRestore) then PgRestore else if s == Name(Host) then Host else if s == Name(Port) then Port
    else if s == Name(Username) then Username else if s == Name(DbName) then DbName
    else if s == Name(Format) then Format else if s == Name(File) then File
    else if s == Name(Directory) then Directory else if s == Name(DropFirst) then DropFirst
    else if s == Name(DataOnly) then DataOnly else if s == Name(SchemaOnly) then SchemaOnly
    else if s == Name(Jobs) then Jobs else if s == Name(Timeout) then Timeout
    else if s == Name(ExcludeDatabase) then ExcludeDatabase
    else if s == Name(WalStart) then WalStart else if s == Name(WalEnd) then WalEnd
    else Other
  }

  /** A length and two characters tell the keys apart. */
  function Mark(k: Key): (nat, char, char) {
    match k
    case PgRestore => (10, '_', 'r')
    case Host => (6, 'h', 'o')
    case Port => (6, 'p', 'o')
    case Username => (10, 'u', 's')
    case DbName => (8, 'd', 'b')
    case Format => (8, 'f', 'o')
    case File => (6, 'f', 'i')
    case Directory => (11, 'd', 'i')
    case DropFirst => (7, 'c', 'l')
    case DataOnly => (11, 'd', 'a')
    case SchemaOnly => (13, 's', 'c')
    case Jobs => (6, 'j', 'o')
    case Timeout => (9, 't', 'i')
    case ExcludeDatabase => (18, 'e', 'x')
    case WalStart => (11, 'w', 'a')
    case WalEnd => (9, 'w', 'a')
    case Other => (0, ' ', ' ')
  }

  lemma MarkOfName(k: Key)
    ensures |Name(k)| == Mark(k).0
    ensures k != Other ==> |Name(k)| > 3 && Name(k)[2] == Mark(k).1 && Name(k)[3] == Mark(k).2
  {
  }

  lemma NamesDiffer(k: Key, l: Key)
    requires k != l
    ensures Name(k) != Name(l)
  {
    MarkOfName(k);
    MarkOfName(l);
    hide Name;
  }

  lemma NamedKey(s: string)
    ensures KeyNamed(s) != Other ==> Name(KeyNamed(s)) == s
    ensures KeyNamed(s) == Other ==> forall k | k != Other :: Name(k) != s
  {
    hide Name;
  }

  lemma KeyOfName(k: Key)
    ensures KeyNamed(Name(k)) == k
  {
    NamedKey(Name(k));
    hide Name, KeyNamed;
    forall l: Key | l != k ensures Name(l) != Name(k) { NamesDiffer(l, k); }
  }

  /** One word: a flag, or a key with a value. */
  datatype Word = Word(key: Key, value: Option<string>)

  function Show(w: Word): string {
    if w.value.None? then Name(w.key) else Name(w.key) + "=" + w.value.value
  }

  /** Splits a word at its first '='. */
  function SplitWord(s: string): (string, Option<string>) {
    if s == "" then ("", None)
    else if s[0] == '=' then ("", Some(s[1..]))
    else
      var (key, value) := SplitWord(s[1..]);
      ([s[0]] + key, value)
  }

  function Read(s: string): Word {
    var (key, value) := SplitWord(s);
    Word(KeyNamed(key), value)
  }

  lemma {:induction false} SplitWordAt(key: string, value: Option<string>)
    requires '=' !in key
    ensures SplitWord(if value.None? then key else key + "=" + value.value) == (key, value)
    decreases |key|
  {
    if key != "" {
      SplitWordAt(key[1..], value);
      assert key == [key[0]] + key[1..];
      assert value.Some? ==> (key + "=" + value.value)[1..] == key[1..] + "=" + value.value;
    }
  }

  lemma ReadShow(w: Word)
    ensures Read(Show(w)) == w
  {
    assert '=' !in Name(w.key);
    SplitWordAt(Name(w.key), w.value);
    KeyOfName(w.key);
  }

  lemma {:induction false} SplitWordKeepsOut(s: string, c: char)
    requires c !in s
    ensures SplitWord(s).1.Some? ==> c !in SplitWord(s).1.value
  {
    if s != "" && s[0] != '=' {
      SplitWordKeepsOut(s[1..], c);
    }
  }

  function Line(words: seq<Word>): string
    requires words != []
  {
    Join(seq(|words|, i requires 0 <= i < |words| => Show(words[i])), ' ')
  }

  lemma LineOfOne(w: Word)
    ensures Line([w]) == Show(w)
  {
    assert seq(1, i requires 0 <= i < 1 => Show([w][i])) == [Show(w)];
  }

  lemma LineAppend(words: seq<Word>, w: Word)
    requires words != []
    ensures Line(words + [w]) == Line(words) + " " + Show(w)
  {
    var more := words + [w];
    var texts := seq(|more|, i requires 0 <= i < |more| => Show(more[i]));
    assert texts[..|words|] == seq(|words|, i requires 0 <= i < |words| => Show(words[i]));
  }

  // ---- Printing ----

  function Flag(on: bool, key: Key): seq<Word> { if on then [Word(key, None)] else [] }

  function Setting(on: bool, key: Key, value: string): seq<Word> { if on then [Word(key, Some(value))] else [] }

  function Excludes(names: seq<string>): (words: seq<Word>)
    ensures |words| == |names|
    ensures forall i | 0 <= i < |names| :: words[i] == Word(ExcludeDatabase, Some(names[i]))
  {
    seq(|names|, i requires 0 <= i < |names| => Word(ExcludeDatabase, Some(names[i])))
  }

  function Included(o: Options): seq<string> { if o.filter.None? then [] else o.filter.value.include_ }

  function Excluded(o: Options): seq<string> { if o.filter.None? then [] else o.filter.value.exclude }

  function IncludeList(o: Options): string { if Included(o) != [] then Join(Included(o), ',') else "" }

  function JobCount(o: Options): string { if o.parallel > 1 then Digits(o.parallel) else "" }

  function Base(database: string): seq<Word> {
    [Word(PgRestore, None)]
    + [Word(Host, Some("${POSTGRES_HOST:-localhost}"))]
    + [Word(Port, Some("${POSTGRES_PORT:-5432}"))]
    + [Word(Username, Some("${POSTGRES_USER:-postgres}"))]
    + [Word(DbName, Some(database))]
  }

  function WithFormat(words: seq<Word>, kind: string): seq<Word> {
    if kind == "logical" then words + [Word(Format, Some("c"))] + [Word(File, Some("/backup/data.dump"))]
    else words + [Word(Format, Some("directory"))] + [Word(Directory, Some("/backup"))]
  }

  function WithFlags(words: seq<Word>, o: Options): seq<Word> {
    words + Flag(o.dropExisting, DropFirst) + Flag(o.dataOnly, DataOnly) + Flag(o.schemaOnly, SchemaOnly)
    + Setting(o.parallel > 1, Jobs, JobCount(o))
    + Setting(o.timeout != "", Timeout, o.timeout)
  }

  function WithFilter(words: seq<Word>, o: Options): seq<Word> {
    words + Setting(Included(o) != [], DbName, IncludeList(o))
    + Excludes(Excluded(o))
  }

  function WithWal(words: seq<Word>, backup: Backup): seq<Word> {
    words + Setting(backup.walStart != "", WalStart, backup.walStart)
    + Setting(backup.walEnd != "", WalEnd, backup.walEnd)
  }

  function Words(backup: Backup, o: Options, database: string): (words: seq<Word>)
    ensures words != []
  {
    WithWal(WithFilter(WithFlags(WithFormat(Base(database), backup.kind), o), o), backup)
  }

  /** Grows the command piece by piece; it is the line of `Words`. */
  method BuildRestoreCommand(backup: Option<Backup>, o: Options, database: string) returns (r: Result<string>)
    ensures r == if backup.None? || !Supported(backup.value) then Err
                 else Ok(Line(Words(backup.value, o, database)))
  {
    if backup.None? { return Err; }
    var b := backup.value;
    LineOfOne(Word(PgRestore, None));
    hide Line, Join;
    var cmd := "pg_restore";
    ghost var words := [Word(PgRestore, None)];
    cmd, words := Add(cmd, words, Word(Host, Some("${POSTGRES_HOST:-localhost}")));
    cmd, words := Add(cmd, words, Word(Port, Some("${POSTGRES_PORT:-5432}")));
    cmd, words := Add(cmd, words, Word(Username, Some("${POSTGRES_USER:-postgres}")));
    cmd, words := Add(cmd, words, Word(DbName, Some(database)));

    if b.kind == "logical" {
      cmd, words := Add(cmd, words, Word(Format, Some("c")));
      cmd, words := Add(cmd, words, Word(File, Some("/backup/data.dump")));
    } else if b.kind == "physical" {
      cmd, words := Add(cmd, words, Word(Format, Some("directory")));
      cmd, words := Add(cmd, words, Word(Directory, Some("/backup")));
    } else {
      return Err;
    }

    cmd, words := AddFlags(cmd, words, o);
    cmd, words := AddFilter(cmd, words, o);
    cmd, words := AddIf(cmd, words, b.walStart != "", WalStart, b.walStart);
    cmd, words := AddIf(cmd, words, b.walEnd != "", WalEnd, b.walEnd);
    return Ok(cmd);
  }

  /** The restore options. */
  method AddFlags(cmd: string, ghost words: seq<Word>, o: Options) returns (longer: string, ghost more: seq<Word>)
    requires words != [] && cmd == Line(words)
    ensures more == WithFlags(words, o) && more != [] && longer == Line(more)
  {
    hide Line;
    longer, more := AddFlag(cmd, words, o.dropExisting, DropFirst);
    longer, more := AddFlag(longer, more, o.dataOnly, DataOnly);
    longer, more := AddFlag(longer, more, o.schemaOnly, SchemaOnly);
    longer, more := AddIf(longer, more, o.parallel > 1, Jobs, JobCount(o));
    longer, more := AddIf(longer, more, o.timeout != "", Timeout, o.timeout);
  }

  /** The database filter. */
  method AddFilter(cmd: string, ghost words: seq<Word>, o: Options) returns (longer: string, ghost more: seq<Word>)
    requires words != [] && cmd == Line(words)
    ensures more == WithFilter(words, o) && more != [] && longer == Line(more)
  {
    hide Line, Join;
    longer, more := cmd, words;
    if o.filter.None? { return; }
    var f := o.filter.value;
    longer, more := AddIf(longer, more, |f.include_| > 0, DbName,
                          IncludeList(o));
    ghost var before := more;
    for i := 0 to |f.exclude|
      invariant more == before + Excludes(f.exclude[..i]) && longer == Line(more)
    {
      longer, more := Add(longer, more, Word(ExcludeDatabase, Some(f.exclude[i])));
    }
    assert f.exclude[..|f.exclude|] == f.exclude;
  }

  method AddIf(cmd: string, ghost words: seq<Word>, on: bool, key: Key, value: string)
    returns (longer: string, ghost more: seq<Word>)
    requires words != [] && cmd == Line(words)
    ensures more == words + Setting(on, key, value) && more != [] && longer == Line(more)
  {
    longer, more := cmd, words;
    if on { longer, more := Add(longer, more, Word(key, Some(value))); }
  }

  method AddFlag(cmd: string, ghost words: seq<Word>, on: bool, key: Key)
    returns (longer: string, ghost more: seq<Word>)
    requires words != [] && cmd == Line(words)
    ensures more == words + Flag(on, key) && more != [] && longer == Line(more)
  {
    longer, more := cmd, words;
    if on { longer, more := Add(longer, more, Word(key, None)); }
  }

  /** Appends a space and one word. */
  method Add(cmd: string, ghost words: seq<Word>, w: Word) returns (longer: string, ghost more: seq<Word>)
    requires words != [] && cmd == Line(words)
    ensures more == words + [w] && longer == Line(more)
  {
    LineAppend(words, w);
    more := words + [w];
    longer := cmd + " " + Show(w);
  }

  // ---- The command as text ----

  function TextIf(on: bool, text: string): string { if on then text else "" }

  function ExcludeText(names: seq<string>): string {
    if names == [] then ""
    else ExcludeText(names[..|names| - 1]) + (" --exclude-database=" + names[|names| - 1])
  }

  /** The whole command, written out. */
  function CommandText(b: Backup, o: Options, database: string): string {
    "pg_restore"
    + (" --host=" + "${POSTGRES_HOST:-localhost}")
    + (" --port=" + "${POSTGRES_PORT:-5432}")
    + (" --username=" + "${POSTGRES_USER:-postgres}")
    + (" --dbname=" + database)
    + (" --format=" + if b.kind == "logical" then "c" else "directory")
    + (if b.kind == "logical" then " --file=" + "/backup/data.dump" else " --directory=" + "/backup")
    + TextIf(o.dropExisting, " --clean")
    + TextIf(o.dataOnly, " --data-only")
    + TextIf(o.schemaOnly, " --schema-only")
    + TextIf(o.parallel > 1, " --jobs=" + JobCount(o))
    + TextIf(o.timeout != "", " --timeout=" + o.timeout)
    + TextIf(Included(o) != [], " --dbname=" + IncludeList(o))
    + ExcludeText(Excluded(o))
    + TextIf(b.walStart != "", " --wal-start=" + b.walStart)
    + TextIf(b.walEnd != "", " --wal-end=" + b.walEnd)
  }

  /** The line of the words is that text. */
  lemma LineIsText(b: Backup, o: Options, database: string)
    ensures Line(Words(b, o, database)) == CommandText(b, o, database)
  {
    var base := Base(database);
    var w1 := WithFormat(base, b.kind);
    var w2 := WithFlags(w1, o);
    var w3 := WithFilter(w2, o);
    BaseText(database);
    FormatText(base, b.kind);
    FlagsText(w1, o);
    FilterText(w2, o);
    WalText(w3, b);
    hide Line, JobCount, IncludeList, ExcludeText, TextIf, Base, WithFormat, WithFlags, WithFilter, WithWal;
  }

  /** One more word adds its text. */
  lemma LineWord(words: seq<Word>, w: Word, text: string)
    requires words != [] && text == " " + Show(w)
    ensures Line(words + [w]) == Line(words) + text
  {
    hide Line, Show;
    LineAppend(words, w);
  }

  lemma LineSetting(words: seq<Word>, on: bool, key: Key, value: string, start: string)
    requires words != [] && start == " " + Name(key) + "="
    ensures Line(words + Setting(on, key, value)) == Line(words) + TextIf(on, start + value)
  {
    hide Line, Name;
    if on {
      LineWord(words, Word(key, Some(value)), start + value);
    } else {
      assert words + Setting(on, key, value) == words;
    }
  }

  lemma LineFlag(words: seq<Word>, on: bool, key: Key, text: string)
    requires words != [] && text == " " + Name(key)
    ensures Line(words + Flag(on, key)) == Line(words) + TextIf(on, text)
  {
    hide Line, Name;
    if on {
      LineWord(words, Word(key, None), text);
    } else {
      assert words + Flag(on, key) == words;
    }
  }

  lemma BaseStarts()
    ensures " --host=" == " " + Name(Host) + "="
    ensures " --port=" == " " + Name(Port) + "="
    ensures " --username=" == " " + Name(Username) + "="
    ensures " --dbname=" == " " + Name(DbName) + "="
    ensures " --format=" == " " + Name(Format) + "="
    ensures " --file=" == " " + Name(File) + "="
    ensures " --directory=" == " " + Name(Directory) + "="
  {
  }

  lemma Starts()
    ensures " --clean" == " " + Name(DropFirst)
    ensures " --data-only" == " " + Name(DataOnly)
    ensures " --schema-only" == " " + Name(SchemaOnly)
    ensures " --jobs=" == " " + Name(Jobs) + "="
    ensures " --timeout=" == " " + Name(Timeout) + "="
    ensures " --exclude-database=" == " " + Name(ExcludeDatabase) + "="
    ensures " --wal-start=" == " " + Name(WalStart) + "="
    ensures " --wal-end=" == " " + Name(WalEnd) + "="
  {
  }

  lemma BaseText(database: string)
    ensures Line(Base(database))
            == "pg_restore" + (" --host=" + "${POSTGRES_HOST:-localhost}") + (" --port=" + "${POSTGRES_PORT:-5432}")
               + (" --username=" + "${POSTGRES_USER:-postgres}") + (" --dbname=" + database)
  {
    hide Line, Show, Name;
    BaseStarts();
    var w0 := [Word(PgRestore, None)];
    assert Line(w0) == "pg_restore" by { LineOfOne(w0[0]); ShowFirst(); }
    LineSetting(w0, true, Host, "${POSTGRES_HOST:-localhost}", " --host=");
    var w1 := w0 + Setting(true, Host, "${POSTGRES_HOST:-localhost}");
    LineSetting(w1, true, Port, "${POSTGRES_PORT:-5432}", " --port=");
    var w2 := w1 + Setting(true, Port, "${POSTGRES_PORT:-5432}");
    LineSetting(w2, true, Username, "${POSTGRES_USER:-postgres}", " --username=");
    LineSetting(w2 + Setting(true, Username, "${POSTGRES_USER:-postgres}"), true, DbName, database, " --dbname=");
  }

  lemma ShowFirst()
    ensures Show(Word(PgRestore, None)) == "pg_restore"
  {
  }

  lemma FormatText(words: seq<Word>, kind: string)
    requires words != []
    ensures Line(WithFormat(words, kind))
            == Line(words) + (" --format=" + if kind == "logical" then "c" else "directory")
               + (if kind == "logical" then " --file=" + "/backup/data.dump" else " --directory=" + "/backup")
  {
    hide Line, Name;
    BaseStarts();
    var format := if kind == "logical" then "c" else "directory";
    LineSetting(words, true, Format, format, " --format=");
    var w := words + Setting(true, Format, format);
    if kind == "logical" {
      LineSetting(w, true, File, "/backup/data.dump", " --file=");
    } else {
      LineSetting(w, true, Directory, "/backup", " --directory=");
    }
  }

  lemma FlagsText(words: seq<Word>, o: Options)
    requires words != []
    ensures Line(WithFlags(words, o))
            == Line(words) + TextIf(o.dropExisting, " --clean") + TextIf(o.dataOnly, " --data-only")
               + TextIf(o.schemaOnly, " --schema-only") + TextIf(o.parallel > 1, " --jobs=" + JobCount(o))
               + TextIf(o.timeout != "", " --timeout=" + o.timeout)
  {
    hide Line, JobCount, Name, TextIf, Flag, Setting;
    Starts();
    LineFlag(words, o.dropExisting, DropFirst, " --clean");
    var w1 := words + Flag(o.dropExisting, DropFirst);
    LineFlag(w1, o.dataOnly, DataOnly, " --data-only");
    var w2 := w1 + Flag(o.dataOnly, DataOnly);
    LineFlag(w2, o.schemaOnly, SchemaOnly, " --schema-only");
    var w3 := w2 + Flag(o.schemaOnly, SchemaOnly);
    LineSetting(w3, o.parallel > 1, Jobs, JobCount(o), " --jobs=");
    var w4 := w3 + Setting(o.parallel > 1, Jobs, JobCount(o));
    LineSetting(w4, o.timeout != "", Timeout, o.timeout, " --timeout=");
  }

  lemma FilterText(words: seq<Word>, o: Options)
    requires words != []
    ensures Line(WithFilter(words, o))
            == Line(words) + TextIf(Included(o) != [], " --dbname=" + IncludeList(o)) + ExcludeText(Excluded(o))
  {
    hide Line, IncludeList, Name, TextIf, Setting, ExcludeText;
    BaseStarts();
    LineSetting(words, Included(o) != [], DbName, IncludeList(o), " --dbname=");
    ExcludesText(words + Setting(Included(o) != [], DbName, IncludeList(o)), Excluded(o));
  }

  lemma {:induction false} ExcludesText(words: seq<Word>, names: seq<string>)
    requires words != []
    ensures Line(words + Excludes(names)) == Line(words) + ExcludeText(names)
  {
    hide Line, Name, Excludes;
    if names == [] {
      assert words + Excludes(names) == words;
    } else {
      Starts();
      ExcludesLast(names);
      var n := |names| - 1;
      var w := Word(ExcludeDatabase, Some(names[n]));
      ExcludesText(words, names[..n]);
      LineSetting(words + Excludes(names[..n]), true, ExcludeDatabase, names[n], " --exclude-database=");
      assert words + Excludes(names) == words + Excludes(names[..n]) + [w];
    }
  }

  lemma WalText(words: seq<Word>, b: Backup)
    requires words != []
    ensures Line(WithWal(words, b))
            == Line(words) + TextIf(b.walStart != "", " --wal-start=" + b.walStart)
               + TextIf(b.walEnd != "", " --wal-end=" + b.walEnd)
  {
    hide Line, Name, TextIf, Setting;
    Starts();
    LineSetting(words, b.walStart != "", WalStart, b.walStart, " --wal-start=");
    var w := words + Setting(b.walStart != "", WalStart, b.walStart);
    LineSetting(w, b.walEnd != "", WalEnd, b.walEnd, " --wal-end=");
  }

  /** Which backups a Job can be built for. */
  lemma AcceptedBackups(b: Backup)
    ensures Supported(b) && Mountable(b) <==>
              && b.kind in {"logical", "physical"}
              && b.storage in {"local", "s3"}
              && (b.storage == "local" ==> exists claim :: claim != "" && ("pvcName", claim) in b.config.Items)
  {
    if "pvcName" in b.config { assert ("pvcName", b.config["pvcName"]) in b.config.Items; }
  }

  // ---- Reading back ----

  /** What a restore command asks for, up to the printer's normal form. */
  datatype Request = Request(
    database: string, logical: bool, dropExisting: bool, dataOnly: bool, schemaOnly: bool,
    parallel: int, timeout: string, include_: seq<string>, exclude: seq<string>,
    walStart: string, walEnd: string)

  function Asked(backup: Backup, o: Options, database: string): Request {
    Request(database, backup.kind == "logical", o.dropExisting, o.dataOnly, o.schemaOnly,
            if o.parallel > 1 then o.parallel else 1, o.timeout, Included(o), Excluded(o),
            backup.walStart, backup.walEnd)
  }

  /** The values given to `key`, in order. */
  function Values(words: seq<Word>, key: Key): seq<string> {
    if words == [] then []
    else Values(words[..|words| - 1], key) +
         var w := words[|words| - 1];
         if w.key == key && w.value.Some? then [w.value.value] else []
  }

  function First(values: seq<string>): string { if values == [] then "" else values[0] }

  function Interpret(words: seq<Word>): Request {
    var databases := Values(words, DbName);
    var jobs := Values(words, Jobs);
    Request(
      First(databases), First(Values(words, Format)) == "c",
      Word(DropFirst, None) in words, Word(DataOnly, None) in words, Word(SchemaOnly, None) in words,
      if jobs == [] then 1 else Number(jobs[0]),
      First(Values(words, Timeout)),
      if |databases| < 2 then [] else Split(databases[1], ','),
      Values(words, ExcludeDatabase),
      First(Values(words, WalStart)), First(Values(words, WalEnd)))
  }

  function ReadAll(parts: seq<string>): seq<Word> {
    seq(|parts|, i requires 0 <= i < |parts| => Read(parts[i]))
  }

  /** Splits a command on spaces and reads its words. */
  function Decode(cmd: string): Request {
    Interpret(ReadAll(Split(cmd, ' ')))
  }

  /** No value contains the character that ends it. */
  predicate Clean(r: Request) {
    && ' ' !in r.database && ' ' !in r.timeout && ' ' !in r.walStart && ' ' !in r.walEnd
    && (forall s | s in r.exclude :: ' ' !in s)
    && (forall s | s in r.include_ :: ' ' !in s && ',' !in s)
  }

  lemma ValuesLast(words: seq<Word>, w: Word, key: Key)
    ensures Values(words + [w], key)
            == Values(words, key) + if w.key == key && w.value.Some? then [w.value.value] else []
  {
    assert (words + [w])[..|words|] == words;
  }

  lemma {:induction false} ValuesAppend(a: seq<Word>, b: seq<Word>, key: Key)
    ensures Values(a + b, key) == Values(a, key) + Values(b, key)
  {
    if b == [] {
      assert a + b == a;
    } else {
      hide Values;
      var n := |b| - 1;
      ValuesAppend(a, b[..n], key);
      ValuesLast(a + b[..n], b[n], key);
      ValuesLast(b[..n], b[n], key);
      assert a + b == a + b[..n] + [b[n]] && b == b[..n] + [b[n]];
    }
  }

  lemma ExcludesLast(names: seq<string>)
    requires names != []
    ensures Excludes(names) == Excludes(names[..|names| - 1]) + [Word(ExcludeDatabase, Some(names[|names| - 1]))]
  {
  }

  lemma {:induction false} ValuesOfExcludes(names: seq<string>, key: Key)
    ensures Values(Excludes(names), key) == if key == ExcludeDatabase then names else []
  {
    if names != [] {
      hide Values, Excludes;
      var n := |names| - 1;
      ExcludesLast(names);
      ValuesOfExcludes(names[..n], key);
      ValuesPlus(Excludes(names[..n]), ExcludeDatabase, names[n], key);
      assert names == names[..n] + [names[n]];
    }
  }

  /** What a word `key=value` that is present when `on` gives to the key asked for. */
  function Pick(on: bool, key: Key, asked: Key, value: string): seq<string> {
    if on && key == asked then [value] else []
  }

  lemma ValuesPlus(words: seq<Word>, key: Key, value: string, asked: Key)
    ensures Values(words + [Word(key, Some(value))], asked) == Values(words, asked) + Pick(true, key, asked, value)
    ensures Values(words + [Word(key, None)], asked) == Values(words, asked)
  {
    assert (words + [Word(key, Some(value))])[..|words|] == words;
    assert (words + [Word(key, None)])[..|words|] == words;
  }

  lemma ValuesIf(words: seq<Word>, on: bool, key: Key, value: string, asked: Key)
    ensures Values(words + Setting(on, key, value), asked) == Values(words, asked) + Pick(on, key, asked, value)
    ensures Values(words + Flag(on, key), asked) == Values(words, asked)
  {
    ValuesPlus(words, key, value, asked);
    assert !on ==> words + Setting(on, key, value) == words && words + Flag(on, key) == words;
  }

  lemma ValuesOfBase(database: string, k: Key)
    requires k != Host && k != Port && k != Username
    ensures Values(Base(database), k) == Pick(true, DbName, k, database)
  {
    var w0 := [Word(PgRestore, None)];
    assert Values(w0, k) == [] by { assert w0[..0] == []; }
    ValuesPlus(w0, Host, "${POSTGRES_HOST:-localhost}", k);
    var w1 := w0 + [Word(Host, Some("${POSTGRES_HOST:-localhost}"))];
    ValuesPlus(w1, Port, "${POSTGRES_PORT:-5432}", k);
    var w2 := w1 + [Word(Port, Some("${POSTGRES_PORT:-5432}"))];
    ValuesPlus(w2, Username, "${POSTGRES_USER:-postgres}", k);
    var w3 := w2 + [Word(Username, Some("${POSTGRES_USER:-postgres}"))];
    ValuesPlus(w3, DbName, database, k);
  }

  lemma ValuesOfFormat(words: seq<Word>, kind: string, k: Key)
    requires k != File && k != Directory
    ensures Values(WithFormat(words, kind), k)
            == Values(words, k) + Pick(true, Format, k, if kind == "logical" then "c" else "directory")
  {
    if kind == "logical" {
      ValuesPlus(words, Format, "c", k);
      ValuesPlus(words + [Word(Format, Some("c"))], File, "/backup/data.dump", k);
    } else {
      ValuesPlus(words, Format, "directory", k);
      ValuesPlus(words + [Word(Format, Some("directory"))], Directory, "/backup", k);
    }
  }

  lemma ValuesOfFlags(words: seq<Word>, o: Options, k: Key)
    ensures Values(WithFlags(words, o), k)
            == Values(words, k) + Pick(o.parallel > 1, Jobs, k, JobCount(o))
               + Pick(o.timeout != "", Timeout, k, o.timeout)
  {
    ValuesIf(words, o.dropExisting, DropFirst, "", k);
    var w1 := words + Flag(o.dropExisting, DropFirst);
    ValuesIf(w1, o.dataOnly, DataOnly, "", k);
    var w2 := w1 + Flag(o.dataOnly, DataOnly);
    ValuesIf(w2, o.schemaOnly, SchemaOnly, "", k);
    var w3 := w2 + Flag(o.schemaOnly, SchemaOnly);
    var jobs := JobCount(o);
    ValuesIf(w3, o.parallel > 1, Jobs, jobs, k);
    ValuesIf(w3 + Setting(o.parallel > 1, Jobs, jobs), o.timeout != "", Timeout, o.timeout, k);
  }

  lemma ValuesOfRest(words: seq<Word>, b: Backup, o: Options, k: Key)
    ensures Values(WithWal(WithFilter(words, o), b), k)
            == Values(words, k)
               + Pick(Included(o) != [], DbName, k, IncludeList(o))
               + (if k == ExcludeDatabase then Excluded(o) else [])
               + Pick(b.walStart != "", WalStart, k, b.walStart) + Pick(b.walEnd != "", WalEnd, k, b.walEnd)
  {
    var list := IncludeList(o);
    ValuesIf(words, Included(o) != [], DbName, list, k);
    ValuesAppend(words + Setting(Included(o) != [], DbName, list), Excludes(Excluded(o)), k);
    ValuesOfExcludes(Excluded(o), k);
    var w := WithFilter(words, o);
    ValuesIf(w, b.walStart != "", WalStart, b.walStart, k);
    ValuesIf(w + Setting(b.walStart != "", WalStart, b.walStart), b.walEnd != "", WalEnd, b.walEnd, k);
  }

  /** The values a printed command gives to a key that carries an option. */
  function Given(b: Backup, o: Options, database: string, k: Key): seq<string> {
    match k
    case DbName => [database] + if Included(o) != [] then [IncludeList(o)] else []
    case Format => [if b.kind == "logical" then "c" else "directory"]
    case Jobs => if o.parallel > 1 then [JobCount(o)] else []
    case Timeout => if o.timeout != "" then [o.timeout] else []
    case ExcludeDatabase => Excluded(o)
    case WalStart => if b.walStart != "" then [b.walStart] else []
    case WalEnd => if b.walEnd != "" then [b.walEnd] else []
    case _ => []
  }

  /** At most two words give a value to any key. */
  lemma GivenPicks(b: Backup, o: Options, database: string, k: Key)
    requires k !in {Host, Port, Username, File, Directory}
    ensures Given(b, o, database, k)
            == Pick(true, DbName, k, database) + Pick(true, Format, k, if b.kind == "logical" then "c" else "directory")
               + Pick(o.parallel > 1, Jobs, k, JobCount(o)) + Pick(o.timeout != "", Timeout, k, o.timeout)
               + Pick(Included(o) != [], DbName, k, IncludeList(o)) + (if k == ExcludeDatabase then Excluded(o) else [])
               + Pick(b.walStart != "", WalStart, k, b.walStart) + Pick(b.walEnd != "", WalEnd, k, b.walEnd)
  {
    hide IncludeList, JobCount;
  }

  lemma ValuesOfWords(b: Backup, o: Options, database: string, k: Key)
    requires k !in {Host, Port, Username, File, Directory}
    ensures Values(Words(b, o, database), k) == Given(b, o, database, k)
  {
    hide WithFormat, WithFlags, WithFilter, WithWal, Base, Values, IncludeList, JobCount, Given, Pick;
    GivenPicks(b, o, database, k);
    var w1 := WithFormat(Base(database), b.kind);
    ValuesOfBase(database, k);
    ValuesOfFormat(Base(database), b.kind, k);
    ValuesOfFlags(w1, o, k);
    ValuesOfRest(WithFlags(w1, o), b, o, k);
  }

  lemma FlagsInWords(b: Backup, o: Options, database: string)
    ensures Word(DropFirst, None) in Words(b, o, database) <==> o.dropExisting
    ensures Word(DataOnly, None) in Words(b, o, database) <==> o.dataOnly
    ensures Word(SchemaOnly, None) in Words(b, o, database) <==> o.schemaOnly
  {
    hide WithFormat, Base, WithFlags, WithFilter, WithWal, IncludeList, JobCount;
    var w := WithFormat(Base(database), b.kind);
    FormatHasNoFlags(database, b.kind);
    FlagsOnly(w, o);
    FlagsKept(WithFlags(w, o), b, o);
  }

  lemma FormatHasNoFlags(database: string, kind: string)
    ensures forall x | x in WithFormat(Base(database), kind) :: x.value.Some? || x.key == PgRestore
  {
    hide Name;
    var base := Base(database);
    assert forall x | x in base :: x.value.Some? || x.key == PgRestore;
    hide Base;
    assert WithFormat(base, kind)[|base|].value.Some? && WithFormat(base, kind)[|base| + 1].value.Some?;
    assert |WithFormat(base, kind)| == |base| + 2 && WithFormat(base, kind)[..|base|] == base;
  }

  lemma FlagsKept(w: seq<Word>, b: Backup, o: Options)
    ensures forall x: Word | x.value.None? :: x in WithWal(WithFilter(w, o), b) <==> x in w
  {
    hide IncludeList;
    assert forall x: Word | x.value.None? :: x in WithFilter(w, o) <==> x in w;
  }

  lemma FlagsOnly(w: seq<Word>, o: Options)
    requires forall x | x in w :: x.value.Some? || x.key == PgRestore
    ensures Word(DropFirst, None) in WithFlags(w, o) <==> o.dropExisting
    ensures Word(DataOnly, None) in WithFlags(w, o) <==> o.dataOnly
    ensures Word(SchemaOnly, None) in WithFlags(w, o) <==> o.schemaOnly
  {
  }

  lemma InterpretGiven(ws: seq<Word>, b: Backup, o: Options, database: string)
    requires Supported(b)
    requires forall s | s in Included(o) :: ',' !in s
    requires forall k: Key | k !in {Host, Port, Username, File, Directory} :: Values(ws, k) == Given(b, o, database, k)
    requires Word(DropFirst, None) in ws <==> o.dropExisting
    requires Word(DataOnly, None) in ws <==> o.dataOnly
    requires Word(SchemaOnly, None) in ws <==> o.schemaOnly
    ensures Interpret(ws) == Asked(b, o, database)
  {
    hide Values, Join, Split, Digits, Number;
    if Included(o) != [] { SplitJoin(Included(o), ','); }
    if o.parallel > 1 { NumberDigits(o.parallel); }
  }

  /** Reading the printed words gives back the request, if no included name has a comma. */
  lemma InterpretWords(b: Backup, o: Options, database: string)
    requires Supported(b)
    requires forall s | s in Included(o) :: ',' !in s
    ensures Interpret(Words(b, o, database)) == Asked(b, o, database)
  {
    FlagsInWords(b, o, database);
    forall k: Key | k !in {Host, Port, Username, File, Directory}
      ensures Values(Words(b, o, database), k) == Given(b, o, database, k)
    {
      ValuesOfWords(b, o, database, k);
    }
    InterpretGiven(Words(b, o, database), b, o, database);
  }

  // ---- Main results ----

  predicate Spaceless(w: Word) { w.value.Some? ==> ' ' !in w.value.value }

  lemma SpacelessWords(b: Backup, o: Options, database: string)
    requires Clean(Asked(b, o, database))
    ensures forall w | w in Words(b, o, database) :: Spaceless(w)
  {
    assert ' ' !in IncludeList(o) by { if Included(o) != [] { JoinChars(Included(o), ',', ' '); } }
    assert ' ' !in JobCount(o);
    hide IncludeList, JobCount;
    var w1 := WithFormat(Base(database), b.kind);
    assert forall w | w in w1 :: Spaceless(w) by { SpacelessBase(database, b.kind); }
    hide WithFlags, WithFilter, WithWal, WithFormat, Base, Spaceless;
    SpacelessStages(w1, b, o);
  }

  lemma SpacelessBase(database: string, kind: string)
    requires ' ' !in database
    ensures forall w | w in WithFormat(Base(database), kind) :: Spaceless(w)
  {
  }

  lemma SpacelessStages(w1: seq<Word>, b: Backup, o: Options)
    requires forall w | w in w1 :: Spaceless(w)
    requires ' ' !in IncludeList(o) && ' ' !in JobCount(o) && ' ' !in o.timeout
    requires ' ' !in b.walStart && ' ' !in b.walEnd && forall s | s in Excluded(o) :: ' ' !in s
    ensures forall w | w in WithWal(WithFilter(WithFlags(w1, o), o), b) :: Spaceless(w)
  {
    hide IncludeList, JobCount;
    var w2 := WithFlags(w1, o);
    assert forall w | w in w2 :: Spaceless(w);
    hide WithFlags;
    var w3 := WithFilter(w2, o);
    assert forall w | w in w3 :: Spaceless(w);
  }

  lemma DecodeLine(words: seq<Word>)
    requires words != []
    requires forall w | w in words :: Spaceless(w)
    ensures Decode(Line(words)) == Interpret(words)
  {
    hide Join, Split, Name, Read, KeyNamed, Interpret, Show, Spaceless;
    var texts := seq(|words|, i requires 0 <= i < |words| => Show(words[i]));
    forall i | 0 <= i < |words| ensures ' ' !in texts[i] && Read(texts[i]) == words[i] {
      ReadShow(words[i]);
      ShownSpaceless(words[i]);
    }
    SplitJoin(texts, ' ');
    assert ReadAll(texts) == words;
  }

  lemma ShownSpaceless(w: Word)
    requires Spaceless(w)
    ensures ' ' !in Show(w)
  {
    assert ' ' !in Name(w.key);
  }

  lemma {:induction false} ValuesSpaceless(words: seq<Word>, k: Key)
    requires forall w | w in words :: Spaceless(w)
    ensures forall v | v in Values(words, k) :: ' ' !in v
  {
    if words != [] {
      var n := |words| - 1;
      assert Spaceless(words[n]);
      ValuesSpaceless(words[..n], k);
    }
  }

  /** Whatever it reads, the reader returns values free of the characters that end them. */
  lemma DecodedClean(cmd: string)
    ensures Clean(Decode(cmd))
  {
    var parts := Split(cmd, ' ');
    var words := ReadAll(parts);
    forall w | w in words ensures Spaceless(w) {
      var i :| 0 <= i < |words| && words[i] == w;
      assert parts[i] in parts;
      SplitWordKeepsOut(parts[i], ' ');
    }
    forall k: Key ensures forall v | v in Values(words, k) :: ' ' !in v { ValuesSpaceless(words, k); }
    var databases := Values(words, DbName);
    if |databases| >= 2 { SplitKeepsOut(databases[1], ',', ' '); }
  }

  lemma {:induction false} SplitKeepsOut(s: string, sep: char, c: char)
    requires c !in s
    ensures forall p | p in Split(s, sep) :: c !in p
  {
    if s != "" {
      SplitKeepsOut(s[..|s| - 1], sep, c);
    }
  }

  /** The printed command can be read back exactly when no option holds a separator. */
  lemma RoundTrip(b: Backup, o: Options, database: string)
    requires Supported(b)
    ensures Decode(Line(Words(b, o, database))) == Asked(b, o, database) <==> Clean(Asked(b, o, database))
  {
    if Clean(Asked(b, o, database)) {
      SpacelessWords(b, o, database);
      DecodeLine(Words(b, o, database));
      InterpretWords(b, o, database);
    }
    DecodedClean(Line(Words(b, o, database)));
  }

  /** Equal commands ask for the same restore. */
  lemma EqualCommands(b: Backup, o: Options, database: string, b': Backup, o': Options, database': string)
    requires Supported(b) && Supported(b')
    requires Clean(Asked(b, o, database)) && Clean(Asked(b', o', database'))
    ensures Line(Words(b, o, database)) == Line(Words(b', o', database'))
            <==> Asked(b, o, database) == Asked(b', o', database')
  {
    hide Words, Asked, Line, Clean, Decode;
    RoundTrip(b, o, database);
    RoundTrip(b', o', database');
    if Asked(b, o, database) == Asked(b', o', database') { SameWords(b, o, database, b', o', database'); }
  }

  lemma SameWords(b: Backup, o: Options, database: string, b': Backup, o': Options, database': string)
    requires Supported(b) && Supported(b') && Asked(b, o, database) == Asked(b', o', database')
    ensures Words(b, o, database) == Words(b', o', database')
  {
    assert WithFlags(WithFormat(Base(database), b.kind), o) == WithFlags(WithFormat(Base(database), b'.kind), o');
  }
}
