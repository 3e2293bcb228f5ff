/** The four severities the logger can be configured with, the names its
    configuration spells them with, and the strings zerolog writes in a
    record's level field. */
module Levels {
  import opened Wrappers
  import opened GoStrings

  datatype Level = Debug | Info | Warn | Error

  /** The configuration names ModuleInit accepts, after upper-casing. They
      are written in capitals only, so each is its own upper-case form. */
  function ConfigName(l: Level): (r: string)
    ensures r != [] && forall i :: 0 <= i < |r| ==> IsUpperLetter(r[i])
    ensures Upper(r) == r
  {
    match l
    case Debug => "DEBUG"
    case Info => "INFO"
    case Warn => "WARNING"
    case Error => "ERROR"
  }

  /** The level strings zerolog puts into a record (its LevelDebugValue,
      LevelInfoValue, LevelWarnValue and LevelErrorValue), which the console
      writer hands to FormatLevel. They are lower-case, and upper-cased they
      give the configuration name of the same level, except for warn, whose
      configuration name is WARNING. */
  function ZerologValue(l: Level): (r: string)
    ensures r != [] && forall i :: 0 <= i < |r| ==> 'a' <= r[i] <= 'z'
    ensures Upper(r) == ConfigName(l) <==> l != Warn
    ensures l == Warn ==> Upper(r) == "WARN"
  {
    match l
    case Debug => assert Upper("debug") == "DEBUG"; "debug"
    case Info => assert Upper("info") == "INFO"; "info"
    case Warn => assert Upper("warn") == "WARN"; "warn"
    case Error => assert Upper("error") == "ERROR"; "error"
  }

  predicate IsUpperLetter(c: char) {
    'A' <= c <= 'Z'
  }

  function LowerChar(c: char): char
    requires IsUpperLetter(c)
  {
    (c as int + 32) as char
  }

  /** n spells name (upper-case ASCII letters) with each letter in either
      case; an 'I' may also be written as a dotless i, an 'S' as a long s. */
  predicate CaseVariant(n: string, name: string)
    requires forall i :: 0 <= i < |name| ==> IsUpperLetter(name[i])
  {
    |n| == |name| &&
    forall i :: 0 <= i < |n| ==>
      n[i] == name[i] || n[i] == LowerChar(name[i]) ||
      (name[i] == 'I' && n[i] == DotlessI) || (name[i] == 'S' && n[i] == LongS)
  }

  /** The characters strings.ToUpper turns into a given upper-case letter. */
  lemma UpperCharTo(c: char, x: char)
    requires IsUpperLetter(x)
    ensures UpperChar(c) == x <==>
      c == x || c == LowerChar(x) || (x == 'I' && c == DotlessI) || (x == 'S' && c == LongS)
  {
  }

  /** Upper-casing yields an all-capitals name exactly for the spellings of
      that name in mixed case. */
  lemma {:induction false} UpperIsName(n: string, name: string)
    requires forall i :: 0 <= i < |name| ==> IsUpperLetter(name[i])
    ensures Upper(n) == name <==> CaseVariant(n, name)
  {
    if Upper(n) == name {
      forall i | 0 <= i < |n|
        ensures n[i] == name[i] || n[i] == LowerChar(name[i]) ||
          (name[i] == 'I' && n[i] == DotlessI) || (name[i] == 'S' && n[i] == LongS)
      {
        UpperCharTo(n[i], name[i]);
      }
    }
    if CaseVariant(n, name) {
      forall i | 0 <= i < |n| ensures Upper(n)[i] == name[i] {
        UpperCharTo(n[i], name[i]);
      }
    }
  }

  /** The level switch is case-insensitive: the upper-case form of n is the
      configuration name of l exactly when n spells that name in any mix of
      cases (so "debug", "Debug" and "DEBUG" all select Debug). */
  lemma AcceptedSpellings(n: string, l: Level)
    ensures forall i :: 0 <= i < |ConfigName(l)| ==> IsUpperLetter(ConfigName(l)[i])
    ensures Upper(n) == ConfigName(l) <==> CaseVariant(n, ConfigName(l))
  {
    UpperIsName(n, ConfigName(l));
  }

  /** The level switch on the upper-cased configuration name: a level
      exactly for the four configuration names, and then the level that
      name spells. */
  function SelectLevel(name: string): (r: Option<Level>)
    ensures r.Some? <==> name in {"DEBUG", "INFO", "WARNING", "ERROR"}
    ensures r.Some? ==> ConfigName(r.value) == name
  {
    if name == "DEBUG" then Some(Debug)
    else if name == "INFO" then Some(Info)
    else if name == "WARNING" then Some(Warn)
    else if name == "ERROR" then Some(Error)
    else None
  }

  /** Distinct levels have distinct configuration names, so a name selects
      at most one level. */
  lemma ConfigNameInjective(l: Level, m: Level)
    ensures ConfigName(l) == ConfigName(m) ==> l == m
  {
  }
}
