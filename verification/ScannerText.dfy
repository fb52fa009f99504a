/** What the scanner's findings look like in the text: strings that hold no brace, calls as they are written, and places
    by their line and column. */
module ScannerText {
  import opened Option
  import opened Scanner

  // ── Strings ──

  /** From `i` to `j` the string that `mark` opened goes on: each mark in it is behind a backslash that is not itself
      behind one. */
  predicate StringGoesOn(src: string, i: nat, j: nat, mark: char)
    decreases j - i
  {
    || i == j
    || (i < j <= |src|
        && (if src[i] == '\\' then i + 2 <= j && StringGoesOn(src, i + 2, j, mark)
            else src[i] != mark && StringGoesOn(src, i + 1, j, mark)))
  }

  lemma {:induction false} QuotedSkip(src: string, from: nat, i: nat, j: nat, mark: char)
    requires from <= i <= j <= |src| && ModeAt(src, from, i) == Quoted(mark) && StringGoesOn(src, i, j, mark)
    ensures ModeAt(src, from, j) == Quoted(mark) && Depth(src, from, j) == Depth(src, from, i)
    ensures NoneCloses(src, from, i) ==> NoneCloses(src, from, j)
    decreases j - i
  {
    if i < j {
      var next := if src[i] == '\\' then i + 2 else i + 1;
      assert ModeAt(src, from, i + 1) == (if src[i] == '\\' then Escaped(mark) else Quoted(mark));
      assert ModeAt(src, from, next) == Quoted(mark) && Depth(src, from, next) == Depth(src, from, i);
      QuotedSkip(src, from, next, j, mark);
    }
  }

  /** A string opens at a mark in the code, and nothing in it opens or closes a brace, up to the mark that ends it. */
  lemma StringSkip(src: string, from: nat, i: nat, j: nat)
    requires from <= i < j < |src| && ModeAt(src, from, i) == Code && src[i] in {'"', '\'', '`'}
    requires StringGoesOn(src, i + 1, j, src[i]) && src[j] == src[i]
    ensures ModeAt(src, from, j + 1) == Code && Depth(src, from, j + 1) == Depth(src, from, i)
    ensures NoneCloses(src, from, i) ==> NoneCloses(src, from, j + 1)
  {
    assert ModeAt(src, from, i + 1) == Quoted(src[i]);
    QuotedSkip(src, from, i + 1, j, src[i]);
  }

  // ── Braces and brackets, counted ──

  /** The braces of this kind in the code between two places: not in a string or a comment. */
  ghost function Braces(src: string, from: nat, to: nat, brace: char): set<int>
    requires from <= to <= |src|
  {
    set k | from <= k < to && ModeAt(src, from, k) == Code && src[k] == brace
  }

  lemma BracesTo(src: string, from: nat, to: nat, brace: char)
    requires from < to <= |src|
    ensures Braces(src, from, to, brace)
         == Braces(src, from, to - 1, brace)
            + if ModeAt(src, from, to - 1) == Code && src[to - 1] == brace then {to - 1} else {}
  {
  }

  /** The depth is how many more braces are opened than closed in the code so far. */
  lemma {:induction false} DepthCounts(src: string, from: nat, to: nat)
    requires from <= to <= |src|
    ensures Depth(src, from, to) == |Braces(src, from, to, '{')| - |Braces(src, from, to, '}')|
  {
    if from == to {
      assert Braces(src, from, to, '{') == {} && Braces(src, from, to, '}') == {};
    } else {
      DepthCounts(src, from, to - 1);
      BracesTo(src, from, to, '{');
      BracesTo(src, from, to, '}');
    }
  }

  ghost function Opened(src: string, from: nat, to: nat): set<int>
    requires from <= to <= |src|
  {
    set k | from <= k < to && src[k] == '<'
  }

  predicate EndsArrow(src: string, k: int)
    requires 0 <= k < |src|
  {
    k > 0 && src[k - 1] == '='
  }

  /** The closing angle brackets, but not an arrow's. */
  ghost function Closed(src: string, from: nat, to: nat): set<int>
    requires from <= to <= |src|
  {
    set k | from <= k < to && src[k] == '>' && !EndsArrow(src, k)
  }

  lemma AnglesTo(src: string, from: nat, to: nat)
    requires from < to <= |src|
    ensures Opened(src, from, to) == Opened(src, from, to - 1) + if src[to - 1] == '<' then {to - 1} else {}
    ensures Closed(src, from, to)
         == Closed(src, from, to - 1)
            + if src[to - 1] == '>' && !EndsArrow(src, to - 1) then {to - 1} else {}
  {
  }

  lemma {:induction false} AnglesCount(src: string, from: nat, to: nat)
    requires from <= to <= |src|
    ensures Angles(src, from, to) == |Opened(src, from, to)| - |Closed(src, from, to)|
  {
    if from == to {
      assert Opened(src, from, to) == {} && Closed(src, from, to) == {};
    } else {
      AnglesCount(src, from, to - 1);
      AnglesTo(src, from, to);
    }
  }

  /** After a closing bracket, within 400 characters, as many are closed as opened. */
  ghost predicate Balances(src: string, from: nat, end: nat)
    requires from <= |src|
  {
    && from < end <= |src| && end <= from + 400 && end - 1 in Closed(src, from, end)
    && |Opened(src, from, end)| == |Closed(src, from, end)|
  }

  /** Type arguments end at the first place where they balance. */
  lemma TypesEndWhereTheyBalance(src: string, from: nat, end: nat)
    requires from <= |src|
    ensures IsTypesEnd(src, from, Some(end)) <==>
              Balances(src, from, end) && forall e :: from < e < end ==> !Balances(src, from, e)
  {
    forall e | from < e <= |src| && e <= from + 400 ensures Balances(src, from, e) <==> ClosesAll(src, from, e - 1) {
      AnglesCount(src, from, e);
    }
    if forall e :: from < e < end ==> !Balances(src, from, e) {
      forall j | from <= j < end - 1 && end <= TypesLimit(src, from) ensures !ClosesAll(src, from, j) {
        assert !Balances(src, from, j + 1);
      }
    }
  }

  // ── Calls ──

  /** Spaces from `from` up to `to`, and none there. */
  ghost predicate SpacesTo(src: string, from: nat, to: nat) {
    && from <= to <= |src|
    && (forall k :: from <= k < to ==> IsSpace(src[k]))
    && (to < |src| ==> !IsSpace(src[to]))
  }

  lemma {:induction false} AfterSpacesIs(src: string, from: nat, to: nat)
    requires from <= |src|
    ensures SpacesTo(src, from, to) <==> to == AfterSpaces(src, from)
    decreases |src| - from
  {
    if from < |src| && IsSpace(src[from]) {
      AfterSpacesIs(src, from + 1, to);
    }
  }

  /** Where a call's parts stand: the type arguments, or else its parenthesis; the parenthesis; its body. */
  datatype Parts = Parts(types: nat, open: nat, body: nat)

  /** The name, spaces, maybe type arguments and spaces, an opening parenthesis, spaces, and a body that closes. */
  ghost predicate IsWritten(src: string, call: Call, p: Parts) {
    && call.start + 8 <= |src| && src[call.start..call.start + 8] == "useQuery"
    && (call.start > 0 ==> !IsWordChar(src[call.start - 1]))
    && (call.start + 8 < |src| ==> !IsWordChar(src[call.start + 8]))
    && SpacesTo(src, call.start + 8, p.types)
    && p.types < |src|
    && (if src[p.types] == '<' then exists e: nat :: IsTypesEnd(src, p.types, Some(e)) && SpacesTo(src, e, p.open)
        else p.open == p.types)
    && p.open < |src| && src[p.open] == '('
    && SpacesTo(src, p.open + 1, p.body)
    && p.body < |src| && src[p.body] == '{'
    && p.body <= call.end <= |src| && IsBodyEnd(src, p.body, Some(call.end)) && call.body == src[p.body..call.end]
  }

  lemma TypesEndIsUnique(src: string, from: nat, a: Option<nat>, b: Option<nat>)
    requires from <= |src| && IsTypesEnd(src, from, a) && IsTypesEnd(src, from, b)
    ensures a == b
  {
  }

  lemma ParenthesisIs(src: string, at: nat, open: nat)
    requires at < |src|
    ensures Parenthesis(src, at) == Some(open) <==>
              if src[at] == '<' then exists e: nat :: IsTypesEnd(src, at, Some(e)) && SpacesTo(src, e, open)
              else open == at
  {
    if src[at] == '<' {
      TypesEndIs(src, at, at);
      var found := TypesEnd(src, at, at);
      if found.Some? {
        AfterSpacesIs(src, found.value, open);
      }
      if e: nat :| IsTypesEnd(src, at, Some(e)) && SpacesTo(src, e, open) {
        TypesEndIsUnique(src, at, found, Some(e));
      }
    }
  }

  /** A call's body, once its parts stand where they do. */
  lemma CallOfParts(src: string, i: nat, p: Parts, end: nat)
    requires IsNameAt(src, i) && AfterSpaces(src, i + |NAME|) == p.types
    requires Parenthesis(src, p.types) == Some(p.open) && At(src, p.open, '(')
    requires AfterSpaces(src, p.open + 1) == p.body && At(src, p.body, '{')
    requires p.body <= end <= |src| && IsBodyEnd(src, p.body, Some(end))
    ensures CallAt(src, i) == Some(Call(i, end, src[p.body..end]))
  {
    BodyEndIs(src, p.body, p.body);
    BodyEndIsUnique(src, p.body, BodyEnd(src, p.body, p.body), Some(end));
  }

  /** Where the parts of a call that is written stand, as the scan finds them. */
  lemma WrittenParts(src: string, call: Call, p: Parts)
    requires IsWritten(src, call, p)
    ensures IsNameAt(src, call.start) && AfterSpaces(src, call.start + |NAME|) == p.types
    ensures Parenthesis(src, p.types) == Some(p.open) && AfterSpaces(src, p.open + 1) == p.body
  {
    AfterSpacesIs(src, call.start + |NAME|, p.types);
    ParenthesisIs(src, p.types, p.open);
    AfterSpacesIs(src, p.open + 1, p.body);
  }

  lemma WrittenIsCall(src: string, call: Call, p: Parts)
    requires IsWritten(src, call, p)
    ensures IsReported(src, 0, call)
  {
    WrittenParts(src, call, p);
    CallOfParts(src, call.start, p, call.end);
  }

  lemma PartsOfCall(src: string, i: nat) returns (p: Parts)
    requires IsNameAt(src, i) && CallAt(src, i).Some?
    ensures AfterSpaces(src, i + |NAME|) == p.types
    ensures Parenthesis(src, p.types) == Some(p.open) && At(src, p.open, '(')
    ensures AfterSpaces(src, p.open + 1) == p.body && At(src, p.body, '{')
    ensures var call := CallAt(src, i).value;
      call.start == i && p.body <= call.end <= |src| && call.body == src[p.body..call.end]
      && IsBodyEnd(src, p.body, Some(call.end))
  {
    var types := AfterSpaces(src, i + |NAME|);
    var open := Parenthesis(src, types).value;
    p := Parts(types, open, AfterSpaces(src, open + 1));
    BodyEndIs(src, p.body, p.body);
  }

  lemma ParenthesisIsAhead(src: string, at: nat)
    requires at <= |src| && Parenthesis(src, at).Some? && At(src, Parenthesis(src, at).value, '(')
    ensures at < |src|
  {
  }

  lemma CallIsWritten(src: string, call: Call) returns (p: Parts)
    requires IsReported(src, 0, call)
    ensures IsWritten(src, call, p)
  {
    p := PartsOfCall(src, call.start);
    ParenthesisIsAhead(src, p.types);
    AfterSpacesIs(src, call.start + |NAME|, p.types);
    ParenthesisIs(src, p.types, p.open);
    AfterSpacesIs(src, p.open + 1, p.body);
  }

  /** What is found is what is written: a call is reported if and only if the text has its name, maybe type arguments, a
      parenthesis and a body that closes, with nothing but spaces between them. */
  lemma FoundIsWritten(src: string, call: Call)
    ensures call in CallsFrom(src, 0) <==> exists p :: IsWritten(src, call, p)
  {
    CallsAre(src, 0);
    if call in CallsFrom(src, 0) {
      var p := CallIsWritten(src, call);
    }
    if p :| IsWritten(src, call, p) {
      WrittenIsCall(src, call, p);
    }
  }

  // ── Places ──

  ghost function Newlines(src: string, pos: nat): set<int>
    requires pos <= |src|
  {
    set k | 0 <= k < pos && src[k] == '\n'
  }

  lemma NewlinesTo(src: string, pos: nat)
    requires 0 < pos <= |src|
    ensures Newlines(src, pos) == Newlines(src, pos - 1) + if src[pos - 1] == '\n' then {pos - 1} else {}
  {
  }

  /** The line is one more than the newlines before the place, and the column how far it is from the last of them, or
      from the start of the text. */
  lemma {:induction false} LineColIs(src: string, pos: nat)
    requires pos <= |src|
    ensures var p := LineColOf(src, pos);
            && p.line == 1 + |Newlines(src, pos)|
            && 1 <= p.col <= pos + 1
            && (p.col <= pos ==> src[pos - p.col] == '\n')
            && (forall k :: pos - p.col < k < pos ==> src[k] != '\n')
  {
    if pos == 0 {
      assert Newlines(src, 0) == {};
    } else {
      LineColIs(src, pos - 1);
      NewlinesTo(src, pos);
    }
  }
}
