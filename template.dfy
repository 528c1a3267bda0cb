/** The helper functions internal/template/template.go registers for the
    login and status pages: presence tests on template values, a default,
    and left indentation of a multi-line message. A template value is an
    `Option`: `None` is Go's nil. */
module Template {
  import opened Wrappers
  import opened Strings

  /** `haveValue`: whether the value is not nil. */
  function HaveValue<V>(val: Option<V>): (r: bool)
    ensures r <==> val.Some?
  {
    val.Some?
  }

  /** `haveAllValue`: false at the first nil value, true when there is none. */
  function HaveAllValue<V>(vals: seq<Option<V>>): (r: bool)
    ensures r <==> forall i :: 0 <= i < |vals| ==> HaveValue(vals[i])
  {
    if |vals| == 0 then true
    else if !HaveValue(vals[0]) then false
    else
      var r := HaveAllValue(vals[1..]);
      assert forall i :: 1 <= i < |vals| ==> vals[i] == vals[1..][i - 1];
      r
  }

  /** `haveAnyValue`: true at the first non-nil value, false when there is none. */
  function HaveAnyValue<V>(vals: seq<Option<V>>): (r: bool)
    ensures r <==> exists i :: 0 <= i < |vals| && HaveValue(vals[i])
  {
    if |vals| == 0 then false
    else if HaveValue(vals[0]) then true
    else
      var r := HaveAnyValue(vals[1..]);
      assert forall i :: 1 <= i < |vals| ==> vals[i] == vals[1..][i - 1];
      r
  }

  /** No arguments are all present and none is present; more than none are
      present when all are. */
  lemma HaveAllAndAny<V>(vals: seq<Option<V>>)
    ensures vals == [] ==> HaveAllValue(vals) && !HaveAnyValue(vals)
    ensures vals != [] && HaveAllValue(vals) ==> HaveAnyValue(vals)
    ensures !HaveAnyValue(vals) ==> HaveAllValue(vals) == (vals == [])
  {
    if vals != [] && HaveAllValue(vals) {
      assert HaveValue(vals[0]);
    }
    if !HaveAnyValue(vals) && vals != [] {
      assert !HaveValue(vals[0]);
    }
  }

  /** `defaultValue`: the value unless it is nil, otherwise the default. */
  function DefaultValue<V>(val: Option<V>, defaultVal: Option<V>): (r: Option<V>)
    ensures val.Some? ==> r == val
    ensures val.None? ==> r == defaultVal
  {
    if val.Some? then val else defaultVal
  }

  /** The result has a value exactly when the value or the default has one,
      and applying the same default again changes nothing. */
  lemma DefaultValueProperties<V>(val: Option<V>, defaultVal: Option<V>)
    ensures HaveValue(DefaultValue(val, defaultVal)) <==> HaveValue(val) || HaveValue(defaultVal)
    ensures DefaultValue(DefaultValue(val, defaultVal), defaultVal) == DefaultValue(val, defaultVal)
  {
  }

  /** Each line with the indentation in front. */
  function Prefixed(ident: string, lines: seq<string>): (r: seq<string>)
    ensures |r| == |lines|
    ensures forall i :: 0 <= i < |lines| ==> r[i] == ident + lines[i]
  {
    if |lines| == 0 then [] else [ident + lines[0]] + Prefixed(ident, lines[1..])
  }

  /** The fold that joins the lines: each line is appended after the text so
      far and a '\n', starting from the empty text. */
  function Reduce(lines: seq<string>): (r: string)
  {
    if |lines| == 0 then "" else Reduce(lines[..|lines| - 1]) + "\n" + lines[|lines| - 1]
  }

  /** `indentLeft`; its result neither begins nor ends with '\n'. */
  function IndentLeft(ident: string, message: string): (r: string)
    ensures r == [] || (r[0] != '\n' && r[|r| - 1] != '\n')
  {
    TrimChar(Reduce(Prefixed(ident, Split(message, '\n'))), '\n')
  }

  /** The fold is the lines joined by '\n', after one leading '\n'. */
  lemma {:induction false} ReduceIsJoin(lines: seq<string>)
    requires |lines| >= 1
    ensures Reduce(lines) == "\n" + Join(lines, '\n')
    decreases |lines|
  {
    if |lines| > 1 {
      var init := lines[..|lines| - 1];
      ReduceIsJoin(init);
      JoinAppend(init, lines[|lines| - 1]);
      assert init + [lines[|lines| - 1]] == lines;
    } else {
      assert Reduce(lines[..0]) == "";
    }
  }

  lemma {:induction false} JoinAppend(parts: seq<string>, last: string)
    requires |parts| >= 1
    ensures Join(parts + [last], '\n') == Join(parts, '\n') + "\n" + last
    decreases |parts|
  {
    if |parts| > 1 {
      assert (parts + [last])[1..] == parts[1..] + [last];
      JoinAppend(parts[1..], last);
    } else {
      assert (parts + [last])[1..] == [last];
    }
  }

  lemma {:induction false} TrimRightCons(c: char, x: string)
    ensures TrimRightChar([c] + x, c) == if TrimRightChar(x, c) == [] then [] else [c] + TrimRightChar(x, c)
    decreases |x|
  {
    if |x| > 0 && x[|x| - 1] == c {
      assert ([c] + x)[..|x|] == [c] + x[..|x| - 1];
      TrimRightCons(c, x[..|x| - 1]);
    } else if |x| == 0 {
      assert ([c] + x)[..0] == [];
    }
  }

  /** One more leading `c` makes no difference to `Trim`. */
  lemma TrimCharCons(c: char, x: string)
    ensures TrimChar([c] + x, c) == TrimChar(x, c)
  {
    TrimRightCons(c, x);
    var right := TrimRightChar(x, c);
    if right != [] {
      assert ([c] + right)[1..] == right;
    }
  }

  /** `indentLeft` puts the indentation in front of every line of the
      message, joins the lines with '\n', and trims '\n' from both ends. */
  lemma IndentLeftJoinsLines(ident: string, message: string)
    ensures IndentLeft(ident, message) == TrimChar(Join(Prefixed(ident, Split(message, '\n')), '\n'), '\n')
  {
    var lines := Prefixed(ident, Split(message, '\n'));
    ReduceIsJoin(lines);
    TrimCharCons('\n', Join(lines, '\n'));
  }

  /** A one-line message is the indentation followed by the message, with
      '\n' trimmed from both ends. */
  lemma IndentLeftOneLine(ident: string, message: string)
    requires '\n' !in message
    ensures IndentLeft(ident, message) == TrimChar(ident + message, '\n')
  {
    IndentLeftJoinsLines(ident, message);
    assert Prefixed(ident, [message]) == [ident + message];
  }
}
