# zerologger in Dafny

A model of the logger set-up in `logger.go`. `Object.ModuleInit` reads the
configured level name. It accepts the name case-insensitively when it is one of
DEBUG, INFO, WARNING or ERROR, and sets zerolog's global level to match.
It then overrides zerolog's field names, time format and caller hook. It builds
a console writer whose level and message are coloured, and a file writer that
rotates every hour. Finally it installs a logger that writes to both.

The model has seven modules, one per file:

- `GoStrings` (gostrings.dfy) models the Go library helpers the code calls:
  `strings.ToUpper`, `strconv.Itoa`, `strings.Split(s, ".")[0]` and
  `filepath.Base`. It also holds the reference functions used to state their
  contracts (`ParseDecimal`, `LastIndexOf`, `LastSegment`).
- `Levels` (levels.dfy) holds the four levels and the configuration names
  accepted for them. It also holds the level strings zerolog writes into a
  record, and the case-insensitivity lemma.
- `Console` (console.dfy) holds the colour table `LevelColorMap` and the
  `ConsoleFormatter` class. That class has the shared `currentLogLevel` field
  and the three format hooks. Two reference functions state what the hooks
  produce: `Visible`, the text a terminal shows once SGR sequences are removed,
  and `LeadingColour`, the SGR sequence a cell starts with.
- `Caller` (caller.dfy) holds the caller annotation
  `[[<app>] ==> <unit>:<line>]` and a parser for it. The parser lets the round
  trip be stated.
- `Rotation` (rotation.dfy) holds the file-name pattern and the rotation
  durations, in nanoseconds as `time.Duration` counts them.
- `Logger` (logger.dfy) holds the `Object` class with `ModuleInit` and
  `FileLogger`. It also holds the `Zerolog` class: zerolog's package
  variables, one instance shared by every `Object`. Three client methods call
  `ModuleInit` with a rejected level, with an accepted one, and on two objects
  in turn.
- `Wrappers` (wrappers.dfy) holds `Option`.

Some of the code's behaviour is easy to misread. The model keeps it as written:

- The colour table's key for warnings is `WARN`, the string zerolog writes.
  The configuration name `WARNING` is not a key (`Console.UncolouredLevel`).
- zerolog's trace, fatal and panic records have no entry in the table either.
  Their level and message are printed without colour but with the reset.
- A level string with no colour still ends in the reset sequence `ESC[0m`.
- The directory and the base name are joined with no separator. `/tmp/app`
  and `svc` give `/tmp/appsvc.log.%Y-%m-%d_%H`. Only a directory ending in `/`
  gets the files inside it (`Rotation.DirectoryNeedsTrailingSlash`).
- The maximum age `7*24*365*3` hours is 183960 hours, which is 21 years of 365
  days, not 3 years (`Rotation.RetentionWindow`).
- When the file writer cannot be built, `fileLogger` returns nil, and
  `ModuleInit` still appends it to the writers. The sink then holds
  `NilWriter`. It is not dropped.
- The caller hook reads the application name from the object's configuration
  each time it is called (`Logger.Object.CallerMarshal`).
- zerolog's level and conventions are process-wide. A second object's
  successful `ModuleInit` replaces the first one's level and caller hook, so
  every record is then annotated with the second application's name
  (`Logger.SecondObjectScenario`).

## Model

| member | source | states |
|---|---|---|
| `Logger.Zerolog.constructor` | logger.go:52-69 | before any `ModuleInit`, zerolog's global level, field names, time format and caller hook have not been set by `ModuleInit`: they hold zerolog's own defaults |
| `Logger.Object.constructor` | logger.go:35-42 | a fresh object has the Go zero value: empty strings, no configuration and no logger. No directory has been requested |
| `Logger.Object.ModuleInit` | logger.go:44-102 | the three settings and the configuration are always copied in. It succeeds exactly when the level switch `SelectLevel` selects a level for the upper-cased name, that is for DEBUG, INFO, WARNING or ERROR, and zerolog's shared global level is then the level the switch selects. On success zerolog's field names, time format and caller hook are set, the hook being this object's, whatever another object installed before. The logger's sink is a fresh console formatter (with an empty current level) followed by what `FileLogger` yields. On failure zerolog's level and conventions, the logger and the directory requests are unchanged |
| `Logger.Object.FileLogger` | logger.go:105-133 | asks for the directory to be created exactly when os.Stat reports it missing, and gives what `FileWriterFor` describes |
| `Logger.FileWriterFor` | logger.go:105-133 | the nil writer exactly when the missing directory cannot be created or the rotating writer cannot be built. Otherwise it is a rotating writer with a one-hour period and a 183960-hour maximum age, over a pattern that is the directory followed by exactly `LogFileName(baseName)`: it starts with the directory and is as long as the two together. For a base name without '/', its last element is the directory's last segment fused with the file name |
| `Logger.Object.CallerMarshal` | logger.go:69-76 | the annotation for a file and line, built from the application name in this object's configuration, parses back to the file's unit name and the line |
| `Levels.SelectLevel` | logger.go:50-62 | the switch selects a level exactly for DEBUG, INFO, WARNING and ERROR, and the level it selects has that configuration name |
| `Levels.ConfigName` | logger.go:50-58 | the configuration names are non-empty and made of capitals only, so each is its own upper-case form |
| `Levels.ZerologValue` | logger.go:85-87 | the level strings zerolog hands to the level hook are lower-case letters. Upper-cased, they give the configuration name of their level, except for warn, which gives WARN and not WARNING |
| `Levels.AcceptedSpellings` | logger.go:50-58 | the upper-case form of a name equals a level's configuration name exactly when the name spells it in any mix of cases, where an I may also be a dotless i. So "debug", "Debug" and "DEBUG" all select Debug |
| `Levels.UpperIsName` | logger.go:50 | for any all-capitals name, `strings.ToUpper` yields that name exactly from its mixed-case spellings, in both directions |
| `Levels.ConfigNameInjective` | logger.go:50-58 | each accepted name selects exactly one level |
| `GoStrings.Upper` | logger.go:50 | upper-casing keeps the length and maps each character on its own |
| `Console.ColorFor` | logger.go:33 | looking up `levelColorMap` gives an SGR sequence (section 8.3.117 of ECMA-48) exactly for the four keys DEBUG, INFO, WARN and ERROR, and the empty string for any other key |
| `Console.ResetIsSgr` | logger.go:22 | the reset is an SGR sequence |
| `Console.Cell` | logger.go:87-90 | a cell, that is a colour, bracketed text and the reset, starts with its key's colour from the table, or with no colour when the key is missing. For text without an escape character, it shows exactly the bracketed text |
| `Console.UpperBracket` | logger.go:87 | upper-casing `"[" + level + "]"` brackets the upper-cased level |
| `Console.ConsoleFormatter.constructor` | logger.go:78-81 | the shared current level starts as the empty string |
| `Console.ConsoleFormatter.FormatLevel` | logger.go:85-88 | afterwards the current level is the upper-cased argument. The result is that level's colour from the table, then the upper-cased level in brackets, then the reset. It starts with the table's colour for that level, and for a level without an escape character it shows exactly `[LEVEL]` |
| `Console.ConsoleFormatter.FormatMessage` | logger.go:89-91 | the state is unchanged. The result is the message in brackets, coloured with the table's colour for the current level and followed by the reset. For a message without an escape character, it shows exactly `[message]` |
| `Console.ConsoleFormatter.FormatTimestamp` | logger.go:92-94 | the state is unchanged. The result is the timestamp in brackets with no colour, and for a timestamp without an escape character it has no escape character |
| `Console.FormatRecord` | logger.go:79-94 | formatting a record's timestamp, level and message in that order gives the level cell and the message cell the same leading colour: the table's colour for this record's level, whatever an earlier record left in the current level |
| `Console.EmittedLevelColours` | logger.go:33 | the level strings zerolog writes for the four levels the configuration can select, once upper-cased, get DEBUG yellow, INFO green, WARN purple and ERROR red |
| `Console.UncolouredLevel` | logger.go:33 | the table has no entry for "WARNING". A level with no entry is rendered as plain brackets followed by the reset, so its cell still contains an escape character |
| `Console.UntabledZerologLevels` | logger.go:33 | the trace, fatal and panic levels zerolog can also write, once upper-cased, have no entry in the table, so they get no colour. Callers can log at those levels because the `Logger` field is exported (logger.go:40) |
| `Console.SgrPrefix` | logger.go:87 | a colour in front of text is invisible and is the text's leading colour |
| `Console.VisiblePlain` | logger.go:90 | text without an escape character is shown as it is |
| `Caller.ShortName` | logger.go:70 | the unit name has no '.'. It has no '/' either, except that it is "/" for a path made only of separators |
| `Caller.ShortNameOfSourceFile` | logger.go:70-71 | the unit name of `dir/stem.ext` is `stem`, the text before the first '.' of the file name. For example `dir/a.b.go` gives `a` |
| `Caller.ShortNameOfPlainFile` | logger.go:70-71 | a file name without '.' is its own unit name. For example `dir/Makefile` gives `Makefile` |
| `Caller.CallerAnnotation` | logger.go:69-76 | parsing the annotation `[[app] ==> unit:line]` with the same application name gives back the file's unit name and the line |
| `GoStrings.FirstField` | logger.go:70 | `strings.Split(s, ".")[0]` is the prefix of s before its first '.', or all of s |
| `GoStrings.Base` | logger.go:70 | `filepath.Base` is never empty and is "." for the empty path. It is "/" exactly for a non-empty path made only of separators, and otherwise has no separator. For a path not ending in '/' it is the last segment, the text after the last '/' |
| `GoStrings.Itoa` | logger.go:75 | `strconv.Itoa` is made of digits with a leading '-' exactly for a negative number. It has no leading zero: it starts with '0' only for zero, which gives "0" |
| `GoStrings.ItoaRoundTrip` | logger.go:75 | reading back the text of `strconv.Itoa` gives the number |
| `Rotation.RetentionWindow` | logger.go:123-124 | the rotation period is one hour. The maximum age is 183960 hours, exactly 21 years of 365 days, and fits in a 64-bit `time.Duration` |
| `Rotation.LogFileName` | logger.go:116-119 | the file name begins with the base name and is longer than it, and has a '/' only when the base name has one |
| `Rotation.LogFilePattern` | logger.go:115-119 | the pattern is the directory followed by exactly the file name, with no separator added: it begins with the directory and is as long as the directory and `LogFileName(baseName)` together. For a base name without '/', the file it names is the directory's last segment followed directly by `baseName + ".log." + "%Y-%m-%d_%H"` |
| `Rotation.DirectoryNeedsTrailingSlash` | logger.go:115-119 | for a base name without '/', the file the pattern names is exactly `LogFileName(baseName)`, that is `baseName + ".log.%Y-%m-%d_%H"`, if and only if the directory is empty or ends in '/' |

## Left out

- Printing and error logging are not modelled. This covers the `fmt.Println` for a rejected level (logger.go:60) and the `log.Error` calls for directory and writer failures (logger.go:109, 127). They are output only.
- The file system and the rotatelogs library are not modelled. The outcomes of `os.Stat`, `os.MkdirAll` and the construction of the rotating writer by `rotatelogs.New` are a `FileEnv` parameter. The last of these fails, for instance, on a pattern that is not a valid strftime pattern. The model records only which directories `MkdirAll` was asked to create, not what exists on disk, and not the mode 0o777.
- Rotation itself is not modelled: expanding `%Y-%m-%d_%H` at each hour boundary and deleting old files are done by the rotatelogs library.
- zerolog's behaviour is kept to the package variables `ModuleInit` sets on success: the global level and the overridden conventions, ghost fields of the one `Zerolog` object all objects share. Only the hook's identity is kept, not the function value zerolog calls. The per-record level gating, JSON encoding, the `With().Timestamp().Caller()` context, Go's time layout, and the ConsoleWriter's line layout and output to stderr are library code.
- Writing through the `io.MultiWriter` sink is not modelled. Nothing says what a write to `NilWriter` does.
- The `Level` datatype has only the four levels the configuration can select. zerolog's trace, fatal and panic levels, and its level gating, are not `Level` values; how their records are rendered is stated by `Console.UntabledZerologLevels` and `Console.UncolouredLevel`.
- Concurrent use of the shared `currentLogLevel` is left out. Only the sequential protocol of one record after another is modelled.
- Configuration loading is left out. The configuration is taken as a value, so a change made through the shared `*config.Configurations` after `ModuleInit` is not modelled.
- The hooks receive `interface{}` values formatted with `%v`. The model takes the level, message and timestamp as strings.
- GoStrings.Upper: models `unicode.ToUpper` only for ASCII, the dotless i and the long s (the only letters whose upper case is ASCII). Other non-ASCII letters keep their case. Which level names are accepted, and which colour a level gets, is still exactly as in Go. But the rendered text of a level with other non-ASCII letters differs.
- GoStrings.Base: models `filepath.Base` with the Unix separator only. Windows volume names and `\` are not modelled.
- GoStrings.Itoa: line numbers are unbounded integers rather than Go's 64-bit `int`.
