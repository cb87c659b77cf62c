/** Replacing `${VAR}` in configuration values: the in-place loop against a reading of the text. */
module ExpandEnv {
  import opened Results
  import opened Wrappers

  datatype ConfigError = Unclosed(text: string) | Undefined(name: string)

  /** A text cut at its variables.  `Broken` is a `${` without its `}`. */
  datatype Template =
    | Tail(text: string)
    | Hole(text: string, name: string, rest: Template)
    | Broken(text: string, unclosed: string)

  predicate OpensAt(s: string, i: nat) {
    i + 2 <= |s| && s[i] == '$' && s[i + 1] == '{'
  }

  /** Position of the first `${`. */
  function FindOpen(s: string): Option<nat> {
    if |s| < 2 then None
    else if OpensAt(s, 0) then Some(0)
    else match FindOpen(s[1..]) case None => None case Some(k) => Some(k + 1)
  }

  function FindClose(s: string): Option<nat> {
    if s == "" then None
    else if s[0] == '}' then Some(0)
    else match FindClose(s[1..]) case None => None case Some(k) => Some(k + 1)
  }

  predicate NoOpen(s: string) { forall i | 0 <= i < |s| :: !OpensAt(s, i) }

  lemma {:induction false} FindOpenIsFirst(s: string)
    ensures match FindOpen(s)
      case None => NoOpen(s)
      case Some(k) => OpensAt(s, k) && forall i | 0 <= i < k :: !OpensAt(s, i)
  {
    if |s| >= 2 && !OpensAt(s, 0) {
      FindOpenIsFirst(s[1..]);
      forall i | 0 < i < |s| ensures OpensAt(s, i) <==> OpensAt(s[1..], i - 1) {}
    }
  }

  lemma {:induction false} FindCloseIsFirst(s: string)
    ensures match FindClose(s)
      case None => '}' !in s
      case Some(k) => k < |s| && s[k] == '}' && '}' !in s[..k]
  {
    if s != "" && s[0] != '}' {
      FindCloseIsFirst(s[1..]);
      if FindClose(s).Some? {
        var k := FindClose(s).value;
        assert s[..k] == [s[0]] + s[1..][..k - 1];
      }
    }
  }

  function Parse(s: string): Template
    decreases |s|
  {
    FindOpenIsFirst(s);
    match FindOpen(s)
    case None => Tail(s)
    case Some(start) =>
      var after := s[start + 2..];
      FindCloseIsFirst(after);
      match FindClose(after)
      case None => Broken(s[..start], after)
      case Some(end) => Hole(s[..start], after[..end], Parse(after[end + 1..]))
  }

  function Print(t: Template): string {
    match t
    case Tail(text) => text
    case Hole(text, name, rest) => text + "${" + name + "}" + Print(rest)
    case Broken(text, unclosed) => text + "${" + unclosed
  }

  /** Values of the environment; `None` for a variable that cannot be read. */
  type Environment = string -> Option<string>

  /** Values go in as they are. */
  function Render(env: Environment, t: Template, original: string): Result<string, ConfigError> {
    match t
    case Tail(text) => Ok(text)
    case Broken(_, _) => Err(Unclosed(original))
    case Hole(text, name, rest) =>
      match env(name)
      case None => Err(Undefined(name))
      case Some(value) =>
        match Render(env, rest, original)
        case Err(e) => Err(e)
        case Ok(more) => Ok(text + value + more)
  }

  /** Templates that the syntax can express. */
  predicate Expressible(t: Template) {
    match t
    case Tail(text) => NoOpen(text)
    case Hole(text, name, rest) => NoOpen(text) && '}' !in name && Expressible(rest)
    case Broken(text, unclosed) => NoOpen(text) && '}' !in unclosed
  }

  lemma Cut(s: string, start: nat, after: string)
    requires OpensAt(s, start) && after == s[start + 2..]
    ensures s == s[..start] + "${" + after
  {
  }

  lemma CutHole(s: string, start: nat, after: string, end: nat)
    requires OpensAt(s, start) && after == s[start + 2..] && end < |after| && after[end] == '}'
    ensures s == s[..start] + "${" + after[..end] + "}" + after[end + 1..]
  {
    assert after == after[..end] + "}" + after[end + 1..];
  }

  lemma {:induction false} ParseLosesNothing(s: string)
    ensures Print(Parse(s)) == s && Expressible(Parse(s))
    decreases |s|
  {
    FindOpenIsFirst(s);
    if FindOpen(s).Some? {
      var start := FindOpen(s).value;
      var after := s[start + 2..];
      forall i | 0 <= i < start ensures !OpensAt(s[..start], i) { assert !OpensAt(s, i); }
      FindCloseIsFirst(after);
      if FindClose(after).Some? {
        ParseLosesNothing(after[FindClose(after).value + 1..]);
        CutHole(s, start, after, FindClose(after).value);
      } else {
        Cut(s, start, after);
      }
    }
  }

  lemma {:induction false} FindOpenAfter(text: string, rest: string)
    requires NoOpen(text)
    ensures FindOpen(text + "${" + rest) == Some(|text|)
  {
    var s := text + "${" + rest;
    FindOpenIsFirst(s);
    assert OpensAt(s, |text|);
    forall i | 0 <= i < |text| ensures !OpensAt(s, i) { assert !OpensAt(text, i); }
    assert FindOpen(s).Some?;
  }

  lemma {:induction false} FindCloseAfter(name: string, rest: string)
    requires '}' !in name
    ensures FindClose(name + "}" + rest) == Some(|name|)
  {
    var s := name + "}" + rest;
    FindCloseIsFirst(s);
    assert s[|name|] == '}';
    var k := FindClose(s).value;
    assert forall j | 0 <= j < |name| :: s[j] == name[j];
    assert forall j | 0 <= j < k :: s[..k][j] == s[j];
  }

  /** Printing and parsing are each other's inverse on everything the syntax can express. */
  lemma {:induction false} ParsePrint(t: Template)
    requires Expressible(t)
    ensures Parse(Print(t)) == t
  {
    match t
    case Tail(text) =>
      FindOpenIsFirst(text);
    case Broken(text, unclosed) =>
      var s := Print(t);
      FindOpenAfter(text, unclosed);
      assert s[..|text|] == text && s[|text| + 2..] == unclosed;
      FindCloseIsFirst(unclosed);
    case Hole(text, name, rest) =>
      var s, after := Print(t), name + "}" + Print(rest);
      assert s == text + "${" + after;
      FindOpenAfter(text, after);
      assert s[..|text|] == text && s[|text| + 2..] == after;
      FindCloseAfter(name, Print(rest));
      assert after[..|name|] == name && after[|name| + 1..] == Print(rest);
      ParsePrint(rest);
  }

  /** Text without a variable stays as it is. */
  lemma {:induction false} PlainTextIsUnchanged(env: Environment, s: string)
    requires NoOpen(s)
    ensures Render(env, Parse(s), s) == Ok(s)
  {
    FindOpenIsFirst(s);
  }

  /** The first variable of a text is replaced by its value, and the text goes on behind it as it
      would on its own; if it has no value, its name is the error. */
  lemma {:induction false} FirstVariableIsReplaced(env: Environment, before: string, name: string, after: string,
        original: string)
    requires NoOpen(before) && '}' !in name
    ensures Render(env, Parse(before + "${" + name + "}" + after), original)
      == match env(name)
         case None => Err(Undefined(name))
         case Some(value) =>
           match Render(env, Parse(after), original)
           case Ok(rest) => Ok(before + value + rest)
           case Err(error) => Err(error)
  {
    var s, tail := before + "${" + name + "}" + after, name + "}" + after;
    assert s == before + "${" + tail;
    FindOpenAfter(before, tail);
    FindCloseAfter(name, after);
    assert s[..|before|] == before && s[|before| + 2..] == tail;
    assert tail[..|name|] == name && tail[|name| + 1..] == after;
  }

  /** A text with one variable becomes the text with its value, which is not read again. */
  lemma OneVariable(env: Environment, before: string, name: string, after: string, value: string)
    requires NoOpen(before) && '}' !in name && NoOpen(after) && env(name) == Some(value)
    ensures var s := before + "${" + name + "}" + after; Render(env, Parse(s), s) == Ok(before + value + after)
  {
    FirstVariableIsReplaced(env, before, name, after, before + "${" + name + "}" + after);
    FindOpenIsFirst(after);
  }

  /** A variable that is not closed is an error that shows the whole text. */
  lemma {:induction false} UnclosedVariable(env: Environment, before: string, unclosed: string, original: string)
    requires NoOpen(before) && '}' !in unclosed
    ensures Render(env, Parse(before + "${" + unclosed), original) == Err(Unclosed(original))
  {
    ParsePrint(Broken(before, unclosed));
  }

  function Prepend(done: string, r: Result<string, ConfigError>): Result<string, ConfigError> {
    match r case Ok(more) => Ok(done + more) case Err(e) => Err(e)
  }

  lemma PrependNothing(r: Result<string, ConfigError>)
    ensures Prepend("", r) == r
  {
    if r.Ok? { assert "" + r.value == r.value; }
  }

  /** Going over one variable of the text that is left. */
  lemma OneHole(env: Environment, original: string, done: string, rest: string, start: nat, end: nat, value: string)
    requires FindOpen(rest) == Some(start) && start + 2 <= |rest|
    requires var after := rest[start + 2..];
      FindClose(after) == Some(end) && end < |after| && env(after[..end]) == Some(value)
    ensures var after := rest[start + 2..];
      Prepend(done, Render(env, Parse(rest), original))
      == Prepend(done + rest[..start] + value, Render(env, Parse(after[end + 1..]), original))
  {
    var after := rest[start + 2..];
    ParseHole(rest, start, end);
    RenderHole(env, original, rest[..start], after[..end], Parse(after[end + 1..]), done, value);
  }

  lemma {:induction false} ParseHole(rest: string, start: nat, end: nat)
    requires FindOpen(rest) == Some(start) && start + 2 <= |rest|
    requires FindClose(rest[start + 2..]) == Some(end) && end < |rest[start + 2..]|
    ensures var after := rest[start + 2..]; Parse(rest) == Hole(rest[..start], after[..end], Parse(after[end + 1..]))
  {
  }

  lemma {:induction false} RenderHole(env: Environment, original: string, text: string, name: string, rest: Template,
        done: string, value: string)
    requires env(name) == Some(value)
    ensures Prepend(done, Render(env, Hole(text, name, rest), original))
      == Prepend(done + text + value, Render(env, rest, original))
  {
    var tail := Render(env, rest, original);
    if tail.Ok? { assert done + (text + value + tail.value) == done + text + value + tail.value; }
  }

  /** Replacing in place, seen from both sides of the new cursor. */
  lemma Replaced(result: string, i: nat, start: nat, end: nat, value: string)
    requires i <= start && start + 2 + end + 1 <= |result|
    ensures var replaced, cursor := result[..start] + value + result[start + 2 + end + 1..], start + |value|;
      && replaced[..cursor] == result[..i] + result[i..][..start - i] + value
      && replaced[cursor..] == result[i..][start - i + 2..][end + 1..]
  {
    assert result[..start] == result[..i] + result[i..][..start - i];
  }

  lemma Stops(env: Environment, original: string, rest: string)
    ensures FindOpen(rest).None? ==> Render(env, Parse(rest), original) == Ok(rest)
    ensures FindOpen(rest).Some? ==>
      var start := FindOpen(rest).value;
      && start + 2 <= |rest|
      && var after := rest[start + 2..];
        match FindClose(after)
        case None => Render(env, Parse(rest), original) == Err(Unclosed(original))
        case Some(end) => end < |after| && (env(after[..end]).None? ==>
          Render(env, Parse(rest), original) == Err(Undefined(after[..end])))
  {
    FindOpenIsFirst(rest);
    if FindOpen(rest).Some? { FindCloseIsFirst(rest[FindOpen(rest).value + 2..]); }
  }

  datatype Next = Finished | Failed(error: ConfigError) | Found(start: nat, end: nat, value: string)

  /** With `done` written and `rest` still to read, the outcome is `goal`. */
  ghost predicate Leads(env: Environment, original: string, done: string, rest: string,
                        goal: Result<string, ConfigError>)
  {
    goal == Prepend(done, Render(env, Parse(rest), original))
  }

  lemma LeadsPastHole(env: Environment, original: string, done: string, rest: string, goal: Result<string, ConfigError>,
        start: nat, end: nat, value: string)
    requires Leads(env, original, done, rest, goal)
    requires FindOpen(rest) == Some(start) && start + 2 <= |rest|
    requires var after := rest[start + 2..];
      FindClose(after) == Some(end) && end < |after| && env(after[..end]) == Some(value)
    ensures Leads(env, original, done + rest[..start] + value, rest[start + 2..][end + 1..], goal)
  {
    OneHole(env, original, done, rest, start, end, value);
  }

  /** The next variable in what is left of the text, and its value. */
  method NextVariable(env: Environment, original: string, rest: string, ghost done: string,
        ghost goal: Result<string, ConfigError>) returns (next: Next)
    requires Leads(env, original, done, rest, goal)
    ensures match next
      case Finished => goal == Ok(done + rest)
      case Failed(e) => goal == Err(e)
      case Found(start, end, value) =>
        && start + 2 + end + 1 <= |rest|
        && Leads(env, original, done + rest[..start] + value, rest[start + 2..][end + 1..], goal)
  {
    Stops(env, original, rest);
    var open := FindOpen(rest);
    if open.None? { return Finished; }
    var after := rest[open.value + 2..];
    var close := FindClose(after);
    if close.None? { return Failed(Unclosed(original)); }
    var name := after[..close.value];
    var value := env(name);
    if value.None? { return Failed(Undefined(name)); }
    LeadsPastHole(env, original, done, rest, goal, open.value, close.value, value.value);
    return Found(open.value, close.value, value.value);
  }

  lemma {:induction false} LeadsFromStart(env: Environment, s: string)
    ensures Leads(env, s, "", s, Render(env, Parse(s), s))
  {
    PrependNothing(Render(env, Parse(s), s));
  }

  /** The loop: what is before the cursor is done, what is after it is still as it was
      in the original text. */
  method Expand(env: Environment, s: string) returns (r: Result<string, ConfigError>)
    ensures r == Render(env, Parse(s), s)
  {
    var result, i := s, 0;
    ghost var goal := Render(env, Parse(s), s);
    LeadsFromStart(env, s);
    assert result[..0] == "" && result[0..] == s;
    while true
      invariant 0 <= i <= |result| && Leads(env, s, result[..i], result[i..], goal)
      decreases |result| - i
    {
      var next := NextVariable(env, s, result[i..], result[..i], goal);
      match next {
        case Finished =>
          assert result == result[..i] + result[i..];
          return Ok(result);
        case Failed(e) => return Err(e);
        case Found(found, end, value) =>
          var start := i + found;
          Replaced(result, i, start, end, value);
          result := result[..start] + value + result[start + 2 + end + 1..];
          i := start + |value|;
      }
    }
  }
}
