/**
  Configuration checks (src/utils/config.py): the settings read from the
  environment, the ordered list of what is missing, and the message built from
  that list. Environment values and the existence of the documentation PDF are
  inputs.
*/
module Config {
  import opened Text

  /** Number of chunks the SDK agent retrieves per question. */
  const TopKResults: nat := 5

  const PdfPath := "./docs/mvk_sdk_documentation.pdf"

  const OpenAiKeyError := "OPENAI_API_KEY is required. Get one at https://platform.openai.com/api-keys"
  const TavilyKeyError := "TAVILY_API_KEY is required. Get one at https://app.tavily.com"
  const MvkKeyError := "MVK_API_KEY is required for tracking"
  const PdfError := "PDF documentation not found at " + PdfPath + ". Please add mvk_sdk_documentation.pdf"

  /** Every error `validate` can report, in the order it checks for them. */
  const AllErrors := [OpenAiKeyError, TavilyKeyError, MvkKeyError, PdfError]

  const MessageHeader := "\U{274C} Configuration errors:\n\n"
  const MessageFooter := "\nPlease check your .env file and ensure all required values are set."

  /** What `validate` looks at: three keys (empty when unset) and whether the PDF exists. */
  datatype Env = Env(openAiKey: string, tavilyKey: string, mvkKey: string, pdfExists: bool)

  /** Which of the four requirements `env` misses, in checking order. */
  function Missing(env: Env): (m: seq<bool>)
    ensures |m| == |AllErrors|
  {
    [env.openAiKey == "", env.tavilyKey == "", env.mvkKey == "", !env.pdfExists]
  }

  predicate Complete(env: Env) {
    env.openAiKey != "" && env.tavilyKey != "" && env.mvkKey != "" && env.pdfExists
  }

  /** The entries of `xs` whose flag is set, in their original order. */
  function Select<T>(xs: seq<T>, flags: seq<bool>): seq<T>
    requires |xs| == |flags|
  {
    if xs == [] then []
    else (if flags[0] then [xs[0]] else []) + Select(xs[1..], flags[1..])
  }

  lemma {:induction false} SelectBounded<T>(xs: seq<T>, flags: seq<bool>)
    requires |xs| == |flags|
    ensures |Select(xs, flags)| <= |xs|
    ensures forall y :: y in Select(xs, flags) ==> y in xs
  {
    if xs != [] {
      SelectBounded(xs[1..], flags[1..]);
    }
  }

  lemma {:induction false} SelectEmpty<T>(xs: seq<T>, flags: seq<bool>)
    requires |xs| == |flags|
    ensures Select(xs, flags) == [] <==> forall i :: 0 <= i < |flags| ==> !flags[i]
  {
    if xs != [] {
      SelectEmpty(xs[1..], flags[1..]);
      if !flags[0] {
        assert forall i :: 1 <= i < |flags| ==> flags[i] == flags[1..][i - 1];
      }
    }
  }

  /** `[x]` when `flag` is set, else nothing. */
  function IfSet<T>(flag: bool, x: T): seq<T> {
    if flag then [x] else []
  }

  lemma SelectCons<T>(xs: seq<T>, flags: seq<bool>)
    requires |xs| == |flags| > 0
    ensures Select(xs, flags) == IfSet(flags[0], xs[0]) + Select(xs[1..], flags[1..])
  {
  }

  /** Selecting from four entries, one entry at a time. */
  lemma SelectFour<T>(xs: seq<T>, flags: seq<bool>)
    requires |xs| == |flags| == 4
    ensures Select(xs, flags)
         == IfSet(flags[0], xs[0]) + IfSet(flags[1], xs[1]) + IfSet(flags[2], xs[2]) + IfSet(flags[3], xs[3])
  {
    var p0, p1, p2, p3 := IfSet(flags[0], xs[0]), IfSet(flags[1], xs[1]), IfSet(flags[2], xs[2]),
                          IfSet(flags[3], xs[3]);
    SelectCons(xs[3..], flags[3..]);
    assert xs[3..][1..] == [] && flags[3..][1..] == [];
    var t3 := Select(xs[3..], flags[3..]);
    assert t3 == p3;
    SelectCons(xs[2..], flags[2..]);
    assert xs[2..][1..] == xs[3..] && flags[2..][1..] == flags[3..];
    var t2 := Select(xs[2..], flags[2..]);
    assert t2 == p2 + t3;
    SelectCons(xs[1..], flags[1..]);
    assert xs[1..][1..] == xs[2..] && flags[1..][1..] == flags[2..];
    var t1 := Select(xs[1..], flags[1..]);
    assert t1 == p1 + t2;
    SelectCons(xs, flags);
    assert Select(xs, flags) == p0 + t1;
    assert p0 + (p1 + (p2 + p3)) == p0 + p1 + p2 + p3;
  }

  /** `Config.validate`. */
  method Validate(env: Env) returns (errors: seq<string>)
    ensures errors == Select(AllErrors, Missing(env))
  {
    var m := Missing(env);
    errors := [];
    if env.openAiKey == "" {
      errors := errors + [OpenAiKeyError];
    }
    assert errors == IfSet(m[0], OpenAiKeyError);
    if env.tavilyKey == "" {
      errors := errors + [TavilyKeyError];
    }
    assert errors == IfSet(m[0], OpenAiKeyError) + IfSet(m[1], TavilyKeyError);
    if env.mvkKey == "" {
      errors := errors + [MvkKeyError];
    }
    assert errors == IfSet(m[0], OpenAiKeyError) + IfSet(m[1], TavilyKeyError) + IfSet(m[2], MvkKeyError);
    if !env.pdfExists {
      errors := errors + [PdfError];
    }
    assert errors == IfSet(m[0], OpenAiKeyError) + IfSet(m[1], TavilyKeyError) + IfSet(m[2], MvkKeyError)
                     + IfSet(m[3], PdfError);
    SelectFour(AllErrors, m);
  }

  /** There are at most four errors, each one of the known ones, and none exactly when nothing is missing. */
  lemma ErrorsBounded(env: Env)
    ensures |Select(AllErrors, Missing(env))| <= 4
    ensures forall e :: e in Select(AllErrors, Missing(env)) ==> e in AllErrors
    ensures Select(AllErrors, Missing(env)) == [] <==> Complete(env)
  {
    SelectBounded(AllErrors, Missing(env));
    SelectEmpty(AllErrors, Missing(env));
    var m := Missing(env);
    assert !Complete(env) ==> m[0] || m[1] || m[2] || m[3];
  }

  /** `Config.is_valid`. */
  method IsValid(env: Env) returns (valid: bool)
    ensures valid <==> Complete(env)
  {
    var errors := Validate(env);
    ErrorsBounded(env);
    valid := |errors| == 0;
  }

  /** The line `get_error_message` writes for one error. */
  function Bullet(error: string): string {
    "  \U{2022} " + error + "\n"
  }

  /** One bullet line per error, in order. */
  function Bullets(errors: seq<string>): (lines: seq<string>)
    ensures |lines| == |errors|
    ensures forall i :: 0 <= i < |errors| ==> lines[i] == Bullet(errors[i])
  {
    seq(|errors|, i requires 0 <= i < |errors| => Bullet(errors[i]))
  }

  /** `Config.get_error_message`. */
  method GetErrorMessage(env: Env) returns (message: string)
    ensures message == "" <==> Complete(env)
    ensures !Complete(env) ==>
              message == MessageHeader + Concat(Bullets(Select(AllErrors, Missing(env)))) + MessageFooter
  {
    var errors := Validate(env);
    ErrorsBounded(env);
    if |errors| == 0 {
      return "";
    }
    var lines := Bullets(errors);
    message := MessageHeader;
    var i := 0;
    while i < |errors|
      invariant 0 <= i <= |errors|
      invariant message == MessageHeader + Concat(lines[..i])
    {
      AppendStep(MessageHeader, lines, i);
      message := message + Bullet(errors[i]);
      i := i + 1;
    }
    assert lines[..i] == lines;
    message := message + MessageFooter;
  }
}
