/** `HttpUtil.setLogLevel` as the function from the given text to the level it
    selects. Case is folded with ASCII upper-casing. */
module LogLevel {
  import opened JavaLang

  /** The six levels the setter recognises. */
  datatype Level = Trace | Debug | Info | Warn | Error | Off

  /** The upper-case name each level is selected by. */
  function Name(l: Level): string
  {
    match l
    case Trace => "TRACE"
    case Debug => "DEBUG"
    case Info => "INFO"
    case Warn => "WARN"
    case Error => "ERROR"
    case Off => "OFF"
  }

  const LevelNames: set<string> := {"TRACE", "DEBUG", "INFO", "WARN", "ERROR", "OFF"}

  predicate IsLower(c: char) { 'a' <= c <= 'z' }
  predicate IsUpper(c: char) { 'A' <= c <= 'Z' }

  function UpperChar(c: char): char
  {
    if IsLower(c) then (c as int - 32) as char else c
  }

  function LowerChar(c: char): char
  {
    if IsUpper(c) then (c as int + 32) as char else c
  }

  /** `String.toUpperCase()`, restricted to ASCII letters. */
  function UpperCase(s: string): (r: string)
    ensures |r| == |s|
    ensures forall i :: 0 <= i < |s| ==> r[i] == UpperChar(s[i])
    decreases |s|
  {
    if |s| == 0 then [] else [UpperChar(s[0])] + UpperCase(s[1..])
  }

  /** ASCII lower-casing, used to state that lower-case names are accepted. */
  function LowerCase(s: string): (r: string)
    ensures |r| == |s|
    ensures forall i :: 0 <= i < |s| ==> r[i] == LowerChar(s[i])
    decreases |s|
  {
    if |s| == 0 then [] else [LowerChar(s[0])] + LowerCase(s[1..])
  }

  /** `setLogLevel(level)`: a null argument fails on `toUpperCase()`; otherwise
      the level whose name is the upper-cased text, or an
      `IllegalArgumentException` naming the text as given. */
  function SetLogLevel(level: Nullable<string>): (r: Result<Level>)
    ensures level.Null? ==> r == Thrown(NullPointer)
    ensures level.Ref? ==> (r.Ok? <==> UpperCase(level.value) in LevelNames)
    ensures r.Ok? ==> Name(r.value) == UpperCase(level.value)
    ensures level.Ref? && r.Thrown? ==>
      r.exception == IllegalArgument("Unsupported log level: " + level.value)
  {
    if level.Null? then Thrown(NullPointer)
    else
      var upper := UpperCase(level.value);
      if upper == "TRACE" then Ok(Trace)
      else if upper == "DEBUG" then Ok(Debug)
      else if upper == "INFO" then Ok(Info)
      else if upper == "WARN" then Ok(Warn)
      else if upper == "ERROR" then Ok(Error)
      else if upper == "OFF" then Ok(Off)
      else Thrown(IllegalArgument("Unsupported log level: " + level.value))
  }

  /** Upper-casing leaves text without lower-case letters unchanged. */
  lemma UpperCaseFixes(s: string)
    requires forall i :: 0 <= i < |s| ==> !IsLower(s[i])
    ensures UpperCase(s) == s
  {
    assert forall i :: 0 <= i < |s| ==> UpperCase(s)[i] == s[i];
  }

  /** Upper-casing undoes lower-casing on text made of upper-case letters. */
  lemma {:induction false} UpperOfLower(s: string)
    requires forall i :: 0 <= i < |s| ==> IsUpper(s[i])
    ensures UpperCase(LowerCase(s)) == s
    decreases |s|
  {
    if |s| > 0 {
      UpperOfLower(s[1..]);
      assert LowerCase(s) == [LowerChar(s[0])] + LowerCase(s[1..]);
      assert UpperCase(LowerCase(s)) == [UpperChar(LowerChar(s[0]))] + UpperCase(LowerCase(s[1..]));
    }
  }

  /** Every level is selected by its own name, in upper case or in lower case,
      and by no other level's name. */
  lemma NamesSelectTheirLevel(l: Level)
    ensures SetLogLevel(Ref(Name(l))) == Ok(l)
    ensures SetLogLevel(Ref(LowerCase(Name(l)))) == Ok(l)
  {
    var n := Name(l);
    assert forall i :: 0 <= i < |n| ==> IsUpper(n[i]);
    UpperCaseFixes(n);
    UpperOfLower(n);
  }

  /** The setter does not see case: two texts that upper-case alike select
      the same level or are both refused. */
  lemma CaseInsensitive(s: string, t: string)
    requires UpperCase(s) == UpperCase(t)
    ensures SetLogLevel(Ref(s)).Ok? <==> SetLogLevel(Ref(t)).Ok?
    ensures SetLogLevel(Ref(s)).Ok? ==> SetLogLevel(Ref(s)).value == SetLogLevel(Ref(t)).value
  {
  }
}
