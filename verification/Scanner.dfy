/** Finding the options object of every useQuery call in a source text (scripts/check-realtime-entities.js). The
    loops jump over comments; here they are proved against a reader that takes the text one character at a time. */
module Scanner {
  import opened Option

  // ── A reader of one character at a time ──

  /** What the next character is part of. `Opening` and `Closing`: the second character of a block comment's two
      marks. */
  datatype Mode = Code | Quoted(mark: char) | Escaped(mark: char) | Line | Opening | Block | Closing

  predicate At(src: string, i: int, ch: char) {
    0 <= i < |src| && src[i] == ch
  }

  predicate IsMark(ch: char) {
    ch == '"' || ch == '\'' || ch == '`'
  }

  function NextMode(src: string, i: nat, mode: Mode): Mode
    requires i < |src|
  {
    match mode
    case Code =>
      if IsMark(src[i]) then Quoted(src[i])
      else if src[i] == '/' && At(src, i + 1, '/') then Line
      else if src[i] == '/' && At(src, i + 1, '*') then Opening
      else Code
    case Quoted(mark) => if src[i] == '\\' then Escaped(mark) else if src[i] == mark then Code else mode
    case Escaped(mark) => Quoted(mark)
    case Line => if src[i] == '\n' then Code else Line
    case Opening => Block
    case Block => if src[i] == '*' && At(src, i + 1, '/') then Closing else Block
    case Closing => Code
  }

  /** What character `i` is part of, reading from `from`. */
  function ModeAt(src: string, from: nat, i: nat): Mode
    requires from <= i <= |src|
  {
    if i == from then Code else NextMode(src, i - 1, ModeAt(src, from, i - 1))
  }

  /** How many more braces are opened than closed before `i`, outside strings and comments. */
  function Depth(src: string, from: nat, i: nat): int
    requires from <= i <= |src|
  {
    if i == from then 0
    else
      Depth(src, from, i - 1)
      + if ModeAt(src, from, i - 1) != Code then 0
        else if src[i - 1] == '{' then 1
        else if src[i - 1] == '}' then -1
        else 0
  }

  /** A closing brace that brings the depth back to zero. */
  predicate Closes(src: string, from: nat, i: nat)
    requires from <= i < |src|
  {
    ModeAt(src, from, i) == Code && src[i] == '}' && Depth(src, from, i + 1) == 0
  }

  ghost predicate NoneCloses(src: string, from: nat, to: nat)
    requires from <= to <= |src|
  {
    forall j :: from <= j < to ==> !Closes(src, from, j)
  }

  /** The body ends after the first brace that closes it; there is none when nothing does. */
  ghost predicate IsBodyEnd(src: string, from: nat, end: Option<nat>)
    requires from <= |src|
  {
    match end
    case Some(e) => from < e <= |src| && Closes(src, from, e - 1) && NoneCloses(src, from, e - 1)
    case None => NoneCloses(src, from, |src|)
  }

  lemma BodyEndIsUnique(src: string, from: nat, a: Option<nat>, b: Option<nat>)
    requires from <= |src| && IsBodyEnd(src, from, a) && IsBodyEnd(src, from, b)
    ensures a == b
  {
  }

  // ── The scan ──

  /** `src.indexOf(ch, from)`, the text's length when there is none. */
  function IndexOf(src: string, ch: char, from: nat): (i: nat)
    ensures from <= |src| ==> from <= i <= |src|
    ensures i < |src| ==> src[i] == ch
    ensures forall j :: from <= j < i && j < |src| ==> src[j] != ch
    decreases |src| - from
  {
    if from >= |src| then |src| else if src[from] == ch then from else IndexOf(src, ch, from + 1)
  }

  /** Where the next block comment's end mark begins, the text's length when there is none. */
  function IndexOfBlockEnd(src: string, from: nat): (i: nat)
    ensures from <= |src| ==> from <= i <= |src|
    ensures i < |src| ==> src[i] == '*' && At(src, i + 1, '/')
    ensures forall j :: from <= j < i && j < |src| ==> !(src[j] == '*' && At(src, j + 1, '/'))
    decreases |src| - from
  {
    if from >= |src| then |src|
    else if src[from] == '*' && At(src, from + 1, '/') then from
    else IndexOfBlockEnd(src, from + 1)
  }

  /** Within a comment nothing opens or closes. */
  lemma {:induction false} LineSkip(src: string, from: nat, i: nat, j: nat)
    requires from <= i < j <= |src| && ModeAt(src, from, i) == Code && src[i] == '/' && At(src, i + 1, '/')
    requires forall k :: i <= k < j ==> src[k] != '\n'
    ensures ModeAt(src, from, j) == Line && Depth(src, from, j) == Depth(src, from, i)
    ensures NoneCloses(src, from, i) ==> NoneCloses(src, from, j)
  {
    if j > i + 1 {
      LineSkip(src, from, i, j - 1);
    }
  }

  lemma {:induction false} BlockSkip(src: string, from: nat, i: nat, j: nat)
    requires from <= i && i + 2 <= j <= |src| && ModeAt(src, from, i) == Code && src[i] == '/' && At(src, i + 1, '*')
    requires forall k :: i + 2 <= k < j ==> !(src[k] == '*' && At(src, k + 1, '/'))
    ensures ModeAt(src, from, j) == Block && Depth(src, from, j) == Depth(src, from, i)
    ensures NoneCloses(src, from, i) ==> NoneCloses(src, from, j)
  {
    if j > i + 2 {
      BlockSkip(src, from, i, j - 1);
    } else {
      assert ModeAt(src, from, i + 1) == Opening;
    }
  }

  function ModeOf(inStr: Option<char>, escape: bool): Mode {
    match inStr
    case None => Code
    case Some(mark) => if escape then Escaped(mark) else Quoted(mark)
  }

  /** The scan for the brace that closes the body opened at `optsStart`. */
  method MatchingBrace(src: string, optsStart: nat) returns (end: Option<nat>)
    requires optsStart <= |src|
    ensures IsBodyEnd(src, optsStart, end)
  {
    var depth: int := 0;
    var inStr: Option<char> := None;
    var escape := false;
    var i := optsStart;
    while i < |src|
      invariant optsStart <= i <= |src| + 1
      invariant i <= |src| ==> ModeAt(src, optsStart, i) == ModeOf(inStr, escape) && (escape ==> inStr.Some?)
      invariant i <= |src| ==> depth == Depth(src, optsStart, i) && NoneCloses(src, optsStart, i)
      invariant i > |src| ==> NoneCloses(src, optsStart, |src|)
      decreases |src| + 1 - i
    {
      var ch := src[i];
      if escape {
        escape := false;
      } else if inStr.Some? {
        if ch == '\\' {
          escape := true;
        } else if ch == inStr.value {
          inStr := None;
        }
      } else if ch == '"' || ch == '\'' || ch == '`' {
        inStr := Some(ch);
      } else if ch == '/' && At(src, i + 1, '/') {
        var nl := IndexOf(src, '\n', i);
        LineSkip(src, optsStart, i, nl);
        i := nl;
      } else if ch == '/' && At(src, i + 1, '*') {
        var close := IndexOfBlockEnd(src, i + 2);
        BlockSkip(src, optsStart, i, close);
        if close == |src| {
          i := |src|;
        } else {
          BlockEnds(src, optsStart, close);
          i := close + 1;
        }
      } else if ch == '{' {
        depth := depth + 1;
      } else if ch == '}' {
        depth := depth - 1;
        if depth == 0 {
          return Some(i + 1);
        }
      }
      i := i + 1;
    }
    return None;
  }

  /** The two characters of a block comment's end mark. */
  lemma BlockEnds(src: string, from: nat, i: nat)
    requires from <= i && i + 1 < |src| && ModeAt(src, from, i) == Block && src[i] == '*' && src[i + 1] == '/'
    ensures ModeAt(src, from, i + 1) == Closing && ModeAt(src, from, i + 2) == Code
    ensures Depth(src, from, i + 2) == Depth(src, from, i)
    ensures NoneCloses(src, from, i) ==> NoneCloses(src, from, i + 2)
  {
  }

  // ── Type arguments ──

  const TYPE_ARGUMENTS_LIMIT: nat := 400

  function TypesLimit(src: string, from: nat): nat {
    if |src| < from + TYPE_ARGUMENTS_LIMIT then |src| else from + TYPE_ARGUMENTS_LIMIT
  }

  predicate ClosesAngle(src: string, i: nat)
    requires i < |src|
  {
    src[i] == '>' && !At(src, i - 1, '=')
  }

  /** How many more angle brackets are opened than closed in `from..i`; an arrow's closes nothing. */
  function Angles(src: string, from: nat, i: nat): int
    requires from <= i <= |src|
  {
    if i == from then 0
    else Angles(src, from, i - 1) + if src[i - 1] == '<' then 1 else if ClosesAngle(src, i - 1) then -1 else 0
  }

  predicate ClosesAll(src: string, from: nat, i: nat)
    requires from <= i < |src|
  {
    ClosesAngle(src, i) && Angles(src, from, i + 1) == 0
  }

  /** The type arguments end after the first bracket, within the limit, that brings the depth back to zero. */
  ghost predicate IsTypesEnd(src: string, from: nat, end: Option<nat>)
    requires from <= |src|
  {
    match end
    case Some(e) =>
      from < e <= TypesLimit(src, from) && ClosesAll(src, from, e - 1)
      && forall j :: from <= j < e - 1 ==> !ClosesAll(src, from, j)
    case None => forall j :: from <= j < TypesLimit(src, from) ==> !ClosesAll(src, from, j)
  }

  method SkipTypeArguments(src: string, from: nat) returns (end: Option<nat>)
    requires from <= |src|
    ensures IsTypesEnd(src, from, end)
  {
    var depth: int := 0;
    var limit := TypesLimit(src, from);
    for i := from to limit
      invariant depth == Angles(src, from, i)
      invariant forall j :: from <= j < i ==> !ClosesAll(src, from, j)
    {
      if src[i] == '<' {
        depth := depth + 1;
      } else if src[i] == '>' && !(i > 0 && src[i - 1] == '=') {
        depth := depth - 1;
        if depth == 0 {
          return Some(i + 1);
        }
      }
    }
    return None;
  }

  // ── The calls of a text ──

  /** JavaScript's `\s`. */
  predicate IsSpace(ch: char) {
    || '\U{9}' <= ch <= '\U{D}' || ch == ' ' || ch == '\U{A0}' || ch == '\U{1680}' || '\U{2000}' <= ch <= '\U{200A}'
    || ch == '\U{2028}' || ch == '\U{2029}' || ch == '\U{202F}' || ch == '\U{205F}' || ch == '\U{3000}'
    || ch == '\U{FEFF}'
  }

  predicate IsWordChar(ch: char) {
    'a' <= ch <= 'z' || 'A' <= ch <= 'Z' || '0' <= ch <= '9' || ch == '_'
  }

  const NAME := "useQuery"

  /** `\buseQuery\b` at `i`. */
  predicate IsNameAt(src: string, i: nat) {
    && i + |NAME| <= |src| && src[i..i + |NAME|] == NAME
    && !(i > 0 && IsWordChar(src[i - 1]))
    && !(i + |NAME| < |src| && IsWordChar(src[i + |NAME|]))
  }

  function AfterSpaces(src: string, from: nat): (i: nat)
    requires from <= |src|
    ensures from <= i <= |src|
    decreases |src| - from
  {
    if from < |src| && IsSpace(src[from]) then AfterSpaces(src, from + 1) else from
  }

  method SkipSpaces(src: string, from: nat) returns (i: nat)
    requires from <= |src|
    ensures i == AfterSpaces(src, from)
  {
    i := from;
    while i < |src| && IsSpace(src[i])
      invariant from <= i <= |src| && AfterSpaces(src, i) == AfterSpaces(src, from)
    {
      i := i + 1;
    }
  }

  datatype Call = Call(start: nat, end: nat, body: string)

  /** The first of the places from `i` on that ends the body. */
  function BodyEnd(src: string, from: nat, i: nat): Option<nat>
    requires from <= i <= |src|
    decreases |src| - i
  {
    if i == |src| then None else if Closes(src, from, i) then Some(i + 1) else BodyEnd(src, from, i + 1)
  }

  lemma {:induction false} BodyEndIs(src: string, from: nat, i: nat)
    requires from <= i <= |src| && NoneCloses(src, from, i)
    ensures IsBodyEnd(src, from, BodyEnd(src, from, i))
    decreases |src| - i
  {
    if i < |src| && !Closes(src, from, i) {
      BodyEndIs(src, from, i + 1);
    }
  }

  function TypesEnd(src: string, from: nat, i: nat): Option<nat>
    requires from <= i && from <= |src|
    decreases |src| - i
  {
    if i >= TypesLimit(src, from) then None
    else if ClosesAll(src, from, i) then Some(i + 1)
    else TypesEnd(src, from, i + 1)
  }

  lemma {:induction false} TypesEndIs(src: string, from: nat, i: nat)
    requires from <= i <= TypesLimit(src, from) && from <= |src|
    requires forall j :: from <= j < i ==> !ClosesAll(src, from, j)
    ensures IsTypesEnd(src, from, TypesEnd(src, from, i))
    decreases |src| - i
  {
    if i < TypesLimit(src, from) && !ClosesAll(src, from, i) {
      TypesEndIs(src, from, i + 1);
    }
  }

  /** Where the arguments' parenthesis must be: here, or after the type arguments that begin here. */
  function Parenthesis(src: string, at: nat): (open: Option<nat>)
    requires at <= |src|
  {
    if !At(src, at, '<') then Some(at)
    else
      TypesEndIs(src, at, at);
      match TypesEnd(src, at, at)
      case None => None
      case Some(e) => Some(AfterSpaces(src, e))
  }

  /** The call at a name: its first argument opens a body, and the body closes. */
  function CallAt(src: string, i: nat): Option<Call>
    requires IsNameAt(src, i)
  {
    var open := Parenthesis(src, AfterSpaces(src, i + |NAME|));
    if open.None? || !At(src, open.value, '(') then None
    else
      var optsStart := AfterSpaces(src, open.value + 1);
      if !At(src, optsStart, '{') then None
      else
        BodyEndIs(src, optsStart, optsStart);
        match BodyEnd(src, optsStart, optsStart)
        case None => None
        case Some(end) => Some(Call(i, end, src[optsStart..end]))
  }

  /** Every call of the text from `i` on, looking at every place. */
  function CallsFrom(src: string, i: nat): seq<Call>
    requires i <= |src|
    decreases |src| - i
  {
    if i == |src| then []
    else
      (if IsNameAt(src, i) && CallAt(src, i).Some? then [CallAt(src, i).value] else []) + CallsFrom(src, i + 1)
  }

  /** A name cannot begin within a name: its first character would follow a word character. */
  lemma NamesAreApart(src: string, i: nat, j: nat)
    requires IsNameAt(src, i) && i < j < i + |NAME|
    ensures !IsNameAt(src, j)
  {
    assert src[j - 1] == NAME[j - 1 - i];
    assert IsWordChar(NAME[0]) && IsWordChar(NAME[1]) && IsWordChar(NAME[2]) && IsWordChar(NAME[3])
        && IsWordChar(NAME[4]) && IsWordChar(NAME[5]) && IsWordChar(NAME[6]);
  }

  lemma NoCallHere(src: string, i: nat)
    requires i < |src| && !IsNameAt(src, i)
    ensures CallsFrom(src, i) == CallsFrom(src, i + 1)
  {
  }

  lemma {:induction false} NoCallsBetween(src: string, i: nat, j: nat)
    requires i <= j <= |src| && forall k :: i <= k < j ==> !IsNameAt(src, k)
    ensures CallsFrom(src, i) == CallsFrom(src, j)
    decreases j - i
  {
    if i < j {
      NoCallHere(src, i);
      NoCallsBetween(src, i + 1, j);
    }
  }

  /** `re.exec` from `lastIndex`: the next name, the text's length when there is none. */
  method NextName(src: string, lastIndex: nat) returns (i: nat)
    requires lastIndex <= |src|
    ensures lastIndex <= i <= |src| && (i < |src| ==> IsNameAt(src, i))
    ensures forall k :: lastIndex <= k < i ==> !IsNameAt(src, k)
  {
    i := lastIndex;
    while i < |src| && !IsNameAt(src, i)
      invariant lastIndex <= i <= |src| && forall k :: lastIndex <= k < i ==> !IsNameAt(src, k)
    {
      i := i + 1;
    }
  }

  method AfterTypes(src: string, at: nat) returns (open: Option<nat>)
    requires at <= |src|
    ensures open == Parenthesis(src, at)
  {
    if !At(src, at, '<') {
      return Some(at);
    }
    var afterTypes := SkipTypeArguments(src, at);
    TypesEndIs(src, at, at);
    if afterTypes.None? {
      return None;
    }
    var i := SkipSpaces(src, afterTypes.value);
    open := Some(i);
  }

  method ReadCall(src: string, start: nat) returns (call: Option<Call>)
    requires IsNameAt(src, start)
    ensures call == CallAt(src, start)
  {
    var at := SkipSpaces(src, start + |NAME|);
    var open := AfterTypes(src, at);
    if open.None? || !At(src, open.value, '(') {
      return None;
    }
    at := SkipSpaces(src, open.value + 1);
    if !At(src, at, '{') {
      return None;
    }
    var end := MatchingBrace(src, at);
    BodyEndIs(src, at, at);
    BodyEndIsUnique(src, at, end, BodyEnd(src, at, at));
    if end.None? {
      return None;
    }
    call := Some(Call(start, end.value, src[at..end.value]));
  }

  function AsSeq(call: Option<Call>): seq<Call> {
    if call.Some? then [call.value] else []
  }

  /** What is found so far, and what is left from `i` on, make up `all`. */
  ghost predicate Leaves(src: string, found: seq<Call>, i: nat, all: seq<Call>)
    requires i <= |src|
  {
    found + CallsFrom(src, i) == all
  }

  /** From one name to the next there is at most the first one's call. */
  lemma NextCalls(src: string, found: seq<Call>, name: nat, next: nat, all: seq<Call>)
    requires IsNameAt(src, name) && name + |NAME| <= next <= |src| && Leaves(src, found, name, all)
    requires forall k :: name + |NAME| <= k < next ==> !IsNameAt(src, k)
    ensures Leaves(src, found + AsSeq(CallAt(src, name)), next, all)
  {
    forall k | name < k < next ensures !IsNameAt(src, k) {
      if k < name + |NAME| {
        NamesAreApart(src, name, k);
      }
    }
    NoCallsBetween(src, name + 1, next);
    assert found + (AsSeq(CallAt(src, name)) + CallsFrom(src, next))
        == found + AsSeq(CallAt(src, name)) + CallsFrom(src, next);
  }

  lemma FirstName(src: string, m: nat)
    requires m <= |src| && forall k :: 0 <= k < m ==> !IsNameAt(src, k)
    ensures Leaves(src, [], m, CallsFrom(src, 0))
  {
    NoCallsBetween(src, 0, m);
  }

  lemma NothingLeft(src: string, found: seq<Call>, all: seq<Call>)
    requires Leaves(src, found, |src|, all)
    ensures found == all
  {
  }

  /** The calls found by jumping from name to name are the text's calls. */
  method FindUseQueryCalls(src: string) returns (calls: seq<Call>)
    ensures calls == CallsFrom(src, 0)
  {
    ghost var all := CallsFrom(src, 0);
    calls := [];
    var m := NextName(src, 0);
    FirstName(src, m);
    while m < |src|
      invariant m <= |src| && (m < |src| ==> IsNameAt(src, m)) && Leaves(src, calls, m, all)
      decreases |src| - m
    {
      ghost var name, found := m, calls;
      var call := ReadCall(src, m);
      calls := calls + AsSeq(call);
      m := NextName(src, m + |NAME|);
      NextCalls(src, found, name, m, all);
    }
    NothingLeft(src, calls, all);
  }

  /** What a reported body is: it runs from its opening brace to the first brace that brings the depth back to zero
      outside strings and comments. */
  lemma {:induction false} CallsAre(src: string, i: nat)
    requires i <= |src|
    ensures forall call :: call in CallsFrom(src, i) <==> IsReported(src, i, call)
    ensures forall a, b :: 0 <= a < b < |CallsFrom(src, i)| ==> CallsFrom(src, i)[a].start < CallsFrom(src, i)[b].start
    decreases |src| - i
  {
    if i < |src| {
      CallsAre(src, i + 1);
      var rest := CallsFrom(src, i + 1);
      forall b | 0 <= b < |rest| ensures rest[b].start > i {
        assert IsReported(src, i + 1, rest[b]);
      }
    }
  }

  predicate IsReported(src: string, i: nat, call: Call) {
    i <= call.start < |src| && IsNameAt(src, call.start) && CallAt(src, call.start) == Some(call)
  }

  /** Where the body of a call begins. */
  lemma CallsBody(src: string, i: nat) returns (optsStart: nat)
    requires IsNameAt(src, i) && CallAt(src, i).Some?
    ensures var call := CallAt(src, i).value;
      && optsStart < call.end <= |src| && src[optsStart] == '{' && call.body == src[optsStart..call.end]
      && IsBodyEnd(src, optsStart, Some(call.end))
  {
    optsStart := AfterSpaces(src, Parenthesis(src, AfterSpaces(src, i + |NAME|)).value + 1);
    BodyEndIs(src, optsStart, optsStart);
  }

  lemma BodiesClose(src: string, call: Call)
    requires IsReported(src, 0, call)
    ensures |call.body| <= call.end <= |src| && call.body == src[call.end - |call.body|..call.end]
    ensures call.body != [] && call.body[0] == '{' && IsBodyEnd(src, call.end - |call.body|, Some(call.end))
  {
    var optsStart := CallsBody(src, call.start);
    assert |call.body| == call.end - optsStart;
  }

  // ── Line and column ──

  datatype Position = Position(line: nat, col: nat)

  function LineColOf(src: string, pos: nat): Position
    requires pos <= |src|
  {
    if pos == 0 then Position(1, 1)
    else
      var p := LineColOf(src, pos - 1);
      if src[pos - 1] == '\n' then Position(p.line + 1, 1) else p.(col := p.col + 1)
  }

  method LineColAt(src: string, pos: nat) returns (line: nat, col: nat)
    requires pos <= |src|
    ensures Position(line, col) == LineColOf(src, pos)
  {
    line, col := 1, 1;
    for i := 0 to pos
      invariant Position(line, col) == LineColOf(src, i)
    {
      if src[i] == '\n' {
        line, col := line + 1, 1;
      } else {
        col := col + 1;
      }
    }
  }

  /** Two places of a text never have the same line and column: the later one is on a later line, or further along. */
  lemma {:induction false} LaterIsFurther(src: string, p: nat, q: nat)
    requires p < q <= |src|
    ensures var a, b := LineColOf(src, p), LineColOf(src, q); a.line < b.line || (a.line == b.line && a.col < b.col)
  {
    if p + 1 < q {
      LaterIsFurther(src, p, q - 1);
    }
  }
}
