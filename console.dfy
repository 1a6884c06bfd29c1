/** The command interpreter `HBNBCommand`: checking class names and ids, tokenising the
    arguments of `update`, coercing the value it assigns, the `create`, `show`, `destroy`,
    `all`, `update` and `count` commands over the storage, and the dotted
    `<class>.<command>(<args>)` syntax. What the console prints is the reply or the error
    each command returns. */
module Console {
  import opened Wrappers
  import opened Text
  import opened Timestamps
  import opened Values
  import opened Schemas
  import opened Engine
  import opened Codec
  import opened Models

  /** `HBNBCommand.classes`. */
  function Classes(): (table: map<string, ClassName>)
    ensures table.Keys == ImportAllClasses().Keys
    ensures forall n :: n in table ==> table[n] == ImportAllClasses()[n]
  {
    map["BaseModel" := BaseModelClass, "User" := UserClass, "Amenity" := AmenityClass,
        "Place" := PlaceClass, "City" := CityClass, "Review" := ReviewClass,
        "State" := StateClass]
  }

  /** The messages the console prints instead of acting, and the exceptions its commands
      let through. */
  datatype ConsoleError =
    | ClassNameMissing       // ** class name missing **
    | ClassDoesntExist       // ** class doesn't exist **
    | InstanceIdMissing      // ** instance id missing **
    | NoInstanceFound        // ** no instance found **
    | AttributeNameMissing   // ** attribute name missing **
    | ValueMissing           // ** value missing **
    | IndexError             // the first word of a line made only of whitespace
    | UnknownSyntax          // *** Unknown syntax: <line>
    | Raised(error: Error)   // an exception from the storage layer

  // ---------------------------------------------------------------------------
  // __check_class_and_id
  // ---------------------------------------------------------------------------

  /** `__check_class_and_id(cmd, line)`: the class name for `create`, otherwise the key
      `<class>.<id>` of a registered instance; the empty string of the source is Failure. */
  function CheckClassAndId(cmd: string, line: string, keys: set<string>)
    : (r: Result<string, ConsoleError>)
    ensures r == Failure(ClassNameMissing) <==> line == ""
    ensures r == Failure(IndexError) <==> line != "" && Words(line) == []
    ensures r == Failure(ClassDoesntExist) <==>
              line != "" && Words(line) != [] && Words(line)[0] !in Classes()
    ensures r.Success? ==> Words(line) != [] && Words(line)[0] in Classes()
    ensures r.Success? && cmd == "create" ==> r.value == Words(line)[0]
    ensures r.Success? && cmd != "create" ==>
              |Words(line)| >= 2 && r.value == Words(line)[0] + "." + Words(line)[1]
              && r.value in keys
    ensures r == Failure(InstanceIdMissing) <==>
              && line != "" && Words(line) != [] && Words(line)[0] in Classes() && cmd != "create"
              && |Words(line)| == 1
    ensures r == Failure(NoInstanceFound) <==>
              && line != "" && Words(line) != [] && Words(line)[0] in Classes() && cmd != "create"
              && |Words(line)| >= 2 && Words(line)[0] + "." + Words(line)[1] !in keys
    ensures r.Failure? ==>
              r.error in {ClassNameMissing, IndexError, ClassDoesntExist, InstanceIdMissing, NoInstanceFound}
  {
    if line == "" then Failure(ClassNameMissing)
    else
      var args := Words(line);
      if args == [] then Failure(IndexError)
      else if args[0] !in Classes() then Failure(ClassDoesntExist)
      else if cmd == "create" then Success(args[0])
      else if |args| == 1 then Failure(InstanceIdMissing)
      else if args[0] + "." + args[1] !in keys then Failure(NoInstanceFound)
      else Success(args[0] + "." + args[1])
  }

  /** The key accepted for a non-`create` command is the registry key of the named class
      and the id as written. */
  lemma CheckedKeyIsKey(cmd: string, line: string, keys: set<string>)
    requires cmd != "create" && CheckClassAndId(cmd, line, keys).Success?
    ensures var args := Words(line);
            CheckClassAndId(cmd, line, keys).value == Key(Classes()[args[0]], Str(args[1]))
  {
    var args := Words(line);
    assert Name(Classes()[args[0]]) == args[0];
  }

  lemma NameIsWord(c: ClassName)
    ensures IsWord(Name(c))
  {
    var n := Name(c);
    forall i | 0 <= i < |n| ensures !IsSpace(n[i]) {
      assert 'A' <= n[i] <= 'z';
    }
  }

  /** `<class> <id>` naming a registered instance is accepted, with the instance's key. */
  lemma {:induction false} CheckAcceptsRegistered(cmd: string, c: ClassName, id: string,
                                                  keys: set<string>)
    requires cmd != "create" && IsWord(id) && Key(c, Str(id)) in keys
    ensures CheckClassAndId(cmd, Name(c) + " " + id, keys) == Success(Key(c, Str(id)))
  {
    NameIsWord(c);
    WordsOfJoin([Name(c), id]);
    assert Join([Name(c), id], " ") == Name(c) + " " + id;
  }

  /** `create <class>` is accepted with the class name. */
  lemma {:induction false} CheckAcceptsCreate(c: ClassName)
    ensures CheckClassAndId("create", Name(c), {}) == Success(Name(c))
  {
    NameIsWord(c);
    WordsOfJoin([Name(c)]);
  }

  // ---------------------------------------------------------------------------
  // __check_update_args
  // ---------------------------------------------------------------------------

  const Quotes: set<char> := {'"', '\''}

  /** What `strip(' "\'')` removes from both ends of the value. */
  const ValueTrim: set<char> := {' ', '"', '\''}

  predicate EndsInQuote(w: string) {
    |w| > 0 && w[|w| - 1] in Quotes
  }

  /** The first token from index `i` on that ends in a quote, or `|args|` if none does. */
  function Closing(args: seq<string>, i: nat): (j: nat)
    requires i <= |args|
    ensures i <= j <= |args|
    ensures j < |args| ==> EndsInQuote(args[j])
    ensures forall k :: i <= k < j ==> !EndsInQuote(args[k])
    decreases |args| - i
  {
    if i == |args| || EndsInQuote(args[i]) then i else Closing(args, i + 1)
  }

  lemma {:induction false} ClosingAt(args: seq<string>, i: nat, j: nat)
    requires i <= j <= |args|
    requires forall k :: i <= k < j ==> !EndsInQuote(args[k])
    requires j == |args| || EndsInQuote(args[j])
    ensures Closing(args, i) == j
    decreases j - i
  {
    if i < j {
      ClosingAt(args, i + 1, j);
    }
  }

  /** The value before stripping: the fourth token, and when it opens with a quote, the
      tokens after it up to and including the first one from the fifth on that ends in a
      quote (or all of them), joined by single spaces. */
  function RawValue(args: seq<string>): string
    requires |args| >= 4
  {
    if |args[3]| > 0 && args[3][0] in Quotes then
      var j := Closing(args, 4);
      Join(args[3..if j < |args| then j + 1 else j], " ")
    else args[3]
  }

  datatype UpdateArgs = UpdateArgs(key: string, name: string, value: string)

  /** What `__check_update_args(line)` returns: the checked key, the attribute name and the
      value with spaces and quotes stripped from both ends. */
  function UpdateArgsOf(line: string, keys: set<string>): (r: Result<UpdateArgs, ConsoleError>)
    ensures CheckClassAndId("update", line, keys).Failure? ==>
              r == Failure(CheckClassAndId("update", line, keys).error)
    ensures CheckClassAndId("update", line, keys).Success? ==>
              && (|Words(line)| == 2 <==> r == Failure(AttributeNameMissing))
              && (|Words(line)| == 3 <==> r == Failure(ValueMissing))
              && (|Words(line)| >= 4 <==> r.Success?)
    ensures r.Success? ==>
              && r.value.key == CheckClassAndId("update", line, keys).value
              && r.value.key in keys
              && r.value.name == Words(line)[2]
              && r.value.value == Strip(RawValue(Words(line)), ValueTrim)
    ensures r.Success? && Words(line)[3][0] !in Quotes ==>
              r.value.value == Strip(Words(line)[3], ValueTrim)
  {
    match CheckClassAndId("update", line, keys)
    case Failure(e) => Failure(e)
    case Success(key) =>
      var args := Words(line);
      if |args| == 2 then Failure(AttributeNameMissing)
      else if |args| == 3 then Failure(ValueMissing)
      else Success(UpdateArgs(key, args[2], Strip(RawValue(args), ValueTrim)))
  }

  /** `__check_update_args(line)`, growing the value token by token. */
  method CheckUpdateArgs(line: string, keys: set<string>) returns (r: Result<UpdateArgs, ConsoleError>)
    ensures r == UpdateArgsOf(line, keys)
  {
    var checked := CheckClassAndId("update", line, keys);
    if checked.Failure? {
      return Failure(checked.error);
    }
    var args := Words(line);
    if |args| == 2 {
      return Failure(AttributeNameMissing);
    } else if |args| == 3 {
      return Failure(ValueMissing);
    }
    var value := GrowValue(args);
    r := Success(UpdateArgs(checked.value, args[2], Strip(value, ValueTrim)));
  }

  /** The loop of `__check_update_args`: a value token that opens with a quote grows by
      each later token, joined with a space, up to and including the first one from the
      fifth on that ends in a quote. */
  method GrowValue(args: seq<string>) returns (value: string)
    requires |args| >= 4
    ensures value == RawValue(args)
  {
    value := args[3];
    if |value| > 0 && value[0] in Quotes {
      var i := 4;
      while i < |args|
        invariant 4 <= i <= |args|
        invariant forall k :: 4 <= k < i ==> !EndsInQuote(args[k])
        invariant value == Join(args[3..i], " ")
      {
        assert args[3..i + 1] == args[3..i] + [args[i]];
        JoinSnoc(args[3..i], args[i], " ");
        value := value + " " + args[i];
        if EndsInQuote(args[i]) {
          ClosingAt(args, 4, i);
          return;
        }
        i := i + 1;
      }
      ClosingAt(args, 4, |args|);
    }
  }

  /** Words without spaces or quotes, quoted as `"w0 w1 ... wn"` after a class, an id and a
      name, come back as the words joined by single spaces, whatever tokens follow the
      closing quote. */
  lemma {:induction false} QuotedValue(head: seq<string>, vs: seq<string>, rest: seq<string>)
    requires |head| == 3 && |vs| >= 2
    requires forall i :: 0 <= i < |vs| ==> IsWord(vs[i]) && forall k :: 0 <= k < |vs[i]| ==> vs[i][k] !in ValueTrim
    ensures var args := head + Quoted(vs) + rest;
            Strip(RawValue(args), ValueTrim) == Join(vs, " ")
  {
    var q := Quoted(vs);
    var args := head + q + rest;
    var n := |vs|;
    assert args[3] == q[0] == ['"'] + vs[0];
    forall k | 4 <= k < n + 2 ensures !EndsInQuote(args[k]) {
      assert args[k] == vs[k - 3];
    }
    assert args[n + 2] == q[n - 1] == vs[n - 1] + ['"'];
    ClosingAt(args, 4, n + 2);
    assert args[3..n + 3] == q;
    QuotedJoin(vs);
    var body := Join(vs, " ");
    JoinEnds(vs, " ");
    StripEnclosed(body, '"', '"', ValueTrim);
    assert ['"'] + body + ['"'] == Join(q, " ");
  }

  /** Words quoted as a whole: a `"` before the first and after the last. */
  function Quoted(vs: seq<string>): (q: seq<string>)
    requires |vs| >= 2
    ensures |q| == |vs|
  {
    [['"'] + vs[0]] + vs[1..|vs| - 1] + [vs[|vs| - 1] + ['"']]
  }

  lemma {:induction false} QuotedJoin(vs: seq<string>)
    requires |vs| >= 2
    ensures Join(Quoted(vs), " ") == ['"'] + Join(vs, " ") + ['"']
  {
    var n := |vs|;
    var mid := [['"'] + vs[0]] + vs[1..n - 1];
    assert Quoted(vs) == mid + [vs[n - 1] + ['"']];
    JoinSnoc(mid, vs[n - 1] + ['"'], " ");
    JoinFront(['"'], vs[..n - 1], " ");
    assert [['"'] + vs[..n - 1][0]] + vs[..n - 1][1..] == mid;
    JoinSnoc(vs[..n - 1], vs[n - 1], " ");
    assert vs[..n - 1] + [vs[n - 1]] == vs;
  }

  /** A prefix on the first word is a prefix of the whole join. */
  lemma JoinFront(p: string, ws: seq<string>, sep: string)
    requires |ws| > 0
    ensures Join([p + ws[0]] + ws[1..], sep) == p + Join(ws, sep)
  {
    var ws' := [p + ws[0]] + ws[1..];
    assert ws'[1..] == ws[1..];
  }

  /** The join starts with the first word's first character and ends with the last word's
      last character. */
  lemma {:induction false} JoinEnds(ws: seq<string>, sep: string)
    requires |ws| > 0 && forall i :: 0 <= i < |ws| ==> |ws[i]| > 0
    ensures var s := Join(ws, sep); |s| > 0 && s[0] == ws[0][0] && s[|s| - 1] == ws[|ws| - 1][|ws[|ws| - 1]| - 1]
  {
    if |ws| > 1 {
      JoinEnds(ws[1..], sep);
    }
  }

  // ---------------------------------------------------------------------------
  // The coercion in do_update
  // ---------------------------------------------------------------------------

  /** The value `do_update` assigns: `int` of an all-digit text; `float` of a text that is
      all digits once one `.` is removed; the text itself otherwise. */
  function Coerce(v: string): (r: Value)
    ensures r.Int? || r.Float? || r.Str?
    ensures r.Float? ==> r.literal == v
    ensures r.Str? ==> r.s == v
  {
    if IsDigits(v) then Int(ParseNat(v))
    else if IsDigits(RemoveFirst(v, '.')) then Float(v)
    else Str(v)
  }

  /** Digits, one point, digits, and at least one digit in all. */
  predicate PointDecimal(v: string) {
    && '.' in v
    && |v| >= 2
    && AllDigits(v[..IndexOf(v, '.')])
    && AllDigits(v[IndexOf(v, '.') + 1..])
  }

  lemma CoerceInt(v: string)
    ensures Coerce(v).Int? <==> IsDigits(v)
    ensures IsDigits(v) ==> Coerce(v) == Int(ParseNat(v))
  {
  }

  lemma {:induction false} CoerceFloat(v: string)
    ensures Coerce(v).Float? <==> PointDecimal(v)
    ensures Coerce(v).Float? ==> Coerce(v).literal == v
  {
    if '.' in v {
      var i := IndexOf(v, '.');
      assert !IsDigits(v) by {
        assert !IsDigit(v[i]);
      }
      assert RemoveFirst(v, '.') == v[..i] + v[i + 1..];
      AllDigitsConcat(v[..i], v[i + 1..]);
    }
  }

  lemma CoerceStr(v: string)
    ensures Coerce(v).Str? <==> !IsDigits(v) && !PointDecimal(v)
    ensures Coerce(v).Str? ==> Coerce(v).s == v
  {
    CoerceFloat(v);
  }

  /** `str(n)` of a natural number is read back as that integer. */
  lemma {:induction false} CoerceDecimal(n: nat)
    ensures Coerce(Decimal(n)) == Int(n)
  {
    ParseDecimal(n);
  }

  /** A sign, two points, a lone point and the empty text are left as text. */
  lemma CoerceTextExamples()
    ensures Coerce("-5") == Str("-5")
    ensures Coerce("1.2.3") == Str("1.2.3")
    ensures Coerce(".") == Str(".")
    ensures Coerce("") == Str("")
  {
    CoerceStr("-5");
    assert !IsDigit("-5"[0]);
    CoerceStr("1.2.3");
    IndexOfAfter("1", '.', "2.3");
    assert "1.2.3" == "1" + ['.'] + "2.3";
    assert !IsDigit("1.2.3"[3]);
    assert "1.2.3"[2..] == "2.3";
    assert !IsDigit("2.3"[1]);
  }

  // ---------------------------------------------------------------------------
  // The dotted syntax: parse_default_args and the command extraction of default
  // ---------------------------------------------------------------------------

  /** What `strip(' \'"')` removes from the id and the attribute name. */
  const ArgTrim: set<char> := {' ', '\'', '"'}

  /** The tuple `parse_default_args` builds from the class name and the comma-separated
      pieces inside the parentheses: at most three pieces are used, the first two stripped
      of spaces and quotes, the third of whitespace only. */
  function Arguments(className: string, brace: seq<string>): (args: seq<string>)
    requires |brace| >= 1
    ensures 2 <= |args| <= 4 && |args| == 1 + (if |brace| < 3 then |brace| else 3)
    ensures args[0] == className && args[1] == Strip(brace[0], ArgTrim)
    ensures |brace| >= 2 ==> args[2] == Strip(brace[1], ArgTrim)
    ensures |brace| >= 3 ==> args[3] == Strip(brace[2], Whitespace)
  {
    [className, Strip(brace[0], ArgTrim)]
    + (if |brace| >= 2 then [Strip(brace[1], ArgTrim)] else [])
    + (if |brace| >= 3 then [Strip(brace[2], Whitespace)] else [])
  }

  /** `parse_default_args(line)`: the class name before the first `.`, then the arguments
      between the first `(` after the `.` and the next `(` (or the end), with `)` stripped
      from both ends; an argument holding a `(` is cut there. A line without a `.`, or
      without a `(` after it, raises IndexError. */
  function ParseDefaultArgs(line: string): (r: Result<seq<string>, ConsoleError>)
    ensures r.Failure? <==> '.' !in line || '(' !in SplitOnce(line, '.')[1]
    ensures r.Failure? ==> r.error == IndexError
    ensures r.Success? ==>
              && 2 <= |r.value| <= 4
              && r.value[0] == SplitOnce(line, '.')[0]
              && '.' !in r.value[0]
    ensures r.Success? ==>
              var pieces := SplitOn(SplitOnce(line, '.')[1], '(');
              && |pieces| >= 2
              && var brace := SplitOn(Strip(pieces[1], {')'}), ',');
                 && |r.value| == 1 + (if |brace| < 3 then |brace| else 3)
                 && r.value[1] == Strip(brace[0], ArgTrim)
                 && (|brace| >= 2 ==> r.value[2] == Strip(brace[1], ArgTrim))
                 && (|brace| >= 3 ==> r.value[3] == Strip(brace[2], Whitespace))
  {
    var parts := SplitOnce(line, '.');
    if |parts| < 2 then Failure(IndexError)
    else
      var pieces := SplitOn(parts[1], '(');
      if |pieces| < 2 then Failure(IndexError)
      else Success(Arguments(parts[0], SplitOn(Strip(pieces[1], {')'}), ',')))
  }

  /** No parsed argument holds a `(`: the text after the second `(` of the call is dropped,
      so `User.update("1", "bio", "likes (tea)")` sets `bio` to `likes`. */
  lemma ArgumentsStopAtParen(line: string)
    requires ParseDefaultArgs(line).Success?
    ensures forall i :: 1 <= i < |ParseDefaultArgs(line).value| ==>
              '(' !in ParseDefaultArgs(line).value[i]
  {
    var parts := SplitOnce(line, '.');
    var pieces := SplitOn(parts[1], '(');
    var inner := Strip(pieces[1], {')'});
    StripAbsent(pieces[1], {')'}, '(');
    var brace := SplitOn(inner, ',');
    SplitOnAbsent(inner, ',', '(');
    var args := Arguments(parts[0], brace);
    assert args == ParseDefaultArgs(line).value;
    forall i | 1 <= i < |args|
      ensures '(' !in args[i]
    {
      ArgumentAbsent(parts[0], brace, i, '(');
    }
  }

  /** A character the pieces lack is not in an argument made from them. */
  lemma ArgumentAbsent(className: string, brace: seq<string>, i: nat, d: char)
    requires |brace| >= 1 && 1 <= i < |Arguments(className, brace)|
    requires d !in brace[i - 1]
    ensures d !in Arguments(className, brace)[i]
  {
    var args := Arguments(className, brace);
    if i == 1 {
      assert args[1] == Strip(brace[0], ArgTrim);
      StripAbsent(brace[0], ArgTrim, d);
    } else if i == 2 {
      assert args[2] == Strip(brace[1], ArgTrim);
      StripAbsent(brace[1], ArgTrim, d);
    } else {
      assert args[3] == Strip(brace[2], Whitespace);
      StripAbsent(brace[2], Whitespace, d);
    }
  }

  /** The `do_<name>` methods of the console; `help` is inherited from `cmd.Cmd`. */
  datatype Command =
    | CreateCmd | ShowCmd | DestroyCmd | AllCmd | UpdateCmd | CountCmd | QuitCmd | EOFCmd | HelpCmd

  function CommandName(c: Command): (n: string)
    ensures '(' !in n && '.' !in n
  {
    match c
    case CreateCmd => "create"
    case ShowCmd => "show"
    case DestroyCmd => "destroy"
    case AllCmd => "all"
    case UpdateCmd => "update"
    case CountCmd => "count"
    case QuitCmd => "quit"
    case EOFCmd => "EOF"
    case HelpCmd => "help"
  }

  /** `getattr(self, f'do_{name}')`; None is the AttributeError of a missing method. */
  function CommandNamed(name: string): Option<Command> {
    if name == "create" then Some(CreateCmd)
    else if name == "show" then Some(ShowCmd)
    else if name == "destroy" then Some(DestroyCmd)
    else if name == "all" then Some(AllCmd)
    else if name == "update" then Some(UpdateCmd)
    else if name == "count" then Some(CountCmd)
    else if name == "quit" then Some(QuitCmd)
    else if name == "EOF" then Some(EOFCmd)
    else if name == "help" then Some(HelpCmd)
    else None
  }

  /** Every command is found under its name, and only under its name. */
  lemma CommandNamedInverse(name: string, c: Command)
    ensures CommandNamed(CommandName(c)) == Some(c)
    ensures CommandNamed(name) == Some(c) ==> CommandName(c) == name
  {
  }

  /** A command and the argument line it is called with. */
  datatype Invocation = Invocation(command: Command, argLine: string)

  /** How `default` routes `<class>.<command>(<args>)`: the command is the text between the
      first `.` and the next `(`; its argument line is the arguments of `parse_default_args`
      joined by spaces, and stripped of whitespace except for `update`. A missing `.`, an
      unknown command or a missing `(` is Unknown syntax. */
  function Route(line: string): (r: Result<Invocation, ConsoleError>)
    ensures r.Failure? ==> r.error == UnknownSyntax
    ensures r.Success? <==>
              && '.' in line
              && CommandNamed(SplitOn(SplitOnce(line, '.')[1], '(')[0]).Some?
              && ParseDefaultArgs(line).Success?
    ensures r.Success? ==>
              r.value.command == CommandNamed(SplitOn(SplitOnce(line, '.')[1], '(')[0]).value
    ensures r.Success? && r.value.command == UpdateCmd ==>
              r.value.argLine == Join(ParseDefaultArgs(line).value, " ")
    ensures r.Success? && r.value.command != UpdateCmd ==>
              r.value.argLine == Strip(Join(ParseDefaultArgs(line).value, " "), Whitespace)
  {
    var parts := SplitOnce(line, '.');
    if |parts| < 2 then Failure(UnknownSyntax)
    else
      match CommandNamed(SplitOn(parts[1], '(')[0])
      case None => Failure(UnknownSyntax)
      case Some(cmd) =>
        match ParseDefaultArgs(line)
        case Failure(_) => Failure(UnknownSyntax)
        case Success(args) =>
          var joined := Join(args, " ");
          Success(Invocation(cmd, if cmd == UpdateCmd then joined else Strip(joined, Whitespace)))
  }

  /** `<class>.<command>(<arguments>)`, the shape the dotted syntax expects. */
  function Call(className: string, command: string, arguments: string): string {
    className + "." + command + "(" + arguments + ")"
  }

  lemma {:induction false} SplitCallAtDot(className: string, command: string, arguments: string)
    requires '.' !in className
    ensures SplitOnce(Call(className, command, arguments), '.') ==
              [className, command + "(" + arguments + ")"]
  {
    var rest := command + "(" + arguments + ")";
    var line := Call(className, command, arguments);
    assert line == className + ['.'] + rest;
    IndexOfAfter(className, '.', rest);
    assert line[..|className|] == className;
    assert line[|className| + 1..] == rest;
  }

  lemma {:induction false} SplitCallAtParen(command: string, arguments: string)
    requires '(' !in command && '(' !in arguments
    ensures SplitOn(command + "(" + arguments + ")", '(') == [command, arguments + ")"]
  {
    assert command + "(" + arguments + ")" == command + ['('] + (arguments + ")");
    SplitOnAfter(command, '(', arguments + ")");
    assert '(' !in arguments + ")";
    SplitOnNone(arguments + ")", '(');
  }

  /** A call is split into its class, its command and the comma-separated pieces of its
      arguments. */
  lemma {:induction false} CallShape(className: string, command: string, arguments: string)
    requires '.' !in className && '(' !in command && '(' !in arguments
    requires arguments == [] || (arguments[0] != ')' && arguments[|arguments| - 1] != ')')
    ensures SplitOnce(Call(className, command, arguments), '.')[1] == command + "(" + arguments + ")"
    ensures SplitOn(command + "(" + arguments + ")", '(')[0] == command
    ensures ParseDefaultArgs(Call(className, command, arguments)) ==
              Success(Arguments(className, SplitOn(arguments, ',')))
  {
    SplitCallAtDot(className, command, arguments);
    SplitCallAtParen(command, arguments);
    StripTrailing(arguments, ')', {')'});
  }

  /** Routing a call: its command, with the joined arguments as argument line. */
  lemma {:induction false} RouteCall(className: string, command: string, cmd: Command,
                                     arguments: string)
    requires CommandNamed(command) == Some(cmd) && '(' !in command
    requires '.' !in className && '(' !in arguments
    requires arguments == [] || (arguments[0] != ')' && arguments[|arguments| - 1] != ')')
    ensures var joined := Join(Arguments(className, SplitOn(arguments, ',')), " ");
            Route(Call(className, command, arguments)) ==
              Success(Invocation(cmd, if cmd == UpdateCmd then joined else Strip(joined, Whitespace)))
  {
    var line := Call(className, command, arguments);
    CallShape(className, command, arguments);
    assert SplitOnce(line, '.') == [className, command + "(" + arguments + ")"] by {
      SplitCallAtDot(className, command, arguments);
    }
    assert ParseDefaultArgs(line) == Success(Arguments(className, SplitOn(arguments, ',')));
  }

  /** No arguments give the one empty argument, whose separating space the final strip
      removes. */
  lemma {:induction false} NoArgumentsLine(n: string)
    requires IsWord(n)
    ensures Strip(Join(Arguments(n, SplitOn("", ',')), " "), Whitespace) == n
  {
    assert SplitOn("", ',') == [""];
    assert Arguments(n, [""]) == [n, ""];
    assert Join([n, ""], " ") == n + [' '];
    StripTrailing(n, ' ', Whitespace);
  }

  /** One quoted argument loses its quotes. */
  lemma {:induction false} OneArgumentLine(n: string, id: string)
    requires IsWord(n) && IsWord(id) && ',' !in id
    requires id[0] !in Quotes && id[|id| - 1] !in Quotes
    ensures Strip(Join(Arguments(n, SplitOn("\"" + id + "\"", ',')), " "), Whitespace) == n + " " + id
  {
    var q := "\"" + id + "\"";
    assert q == ['"'] + id + ['"'];
    SplitOnNone(q, ',');
    StripEnclosed(id, '"', '"', ArgTrim);
    assert Arguments(n, [q]) == [n, id];
    assert Join([n, id], " ") == n + " " + id;
    StripUnchanged(n + " " + id, Whitespace);
  }

  /** `<class>.<command>()` calls the command with the class name alone. */
  lemma {:induction false} RouteNoArguments(c: ClassName, cmd: Command)
    requires cmd != UpdateCmd
    ensures Route(Call(Name(c), CommandName(cmd), "")) == Success(Invocation(cmd, Name(c)))
  {
    NameIsWord(c);
    NoArgumentsLine(Name(c));
    CommandNamedInverse(CommandName(cmd), cmd);
    RouteCall(Name(c), CommandName(cmd), cmd, "");
  }

  /** `<class>.<command>("<id>")` calls the command with `<class> <id>`. */
  lemma {:induction false} RouteOneArgument(c: ClassName, cmd: Command, id: string)
    requires cmd != UpdateCmd
    requires IsWord(id) && ',' !in id && '(' !in id
    requires id[0] !in Quotes && id[|id| - 1] !in Quotes
    ensures Route(Call(Name(c), CommandName(cmd), "\"" + id + "\"")) ==
              Success(Invocation(cmd, Name(c) + " " + id))
  {
    var q := "\"" + id + "\"";
    NameIsWord(c);
    OneArgumentLine(Name(c), id);
    CommandNamedInverse(CommandName(cmd), cmd);
    assert '(' !in q && q[0] != ')' && q[|q| - 1] != ')';
    RouteCall(Name(c), CommandName(cmd), cmd, q);
  }

  // ---------------------------------------------------------------------------
  // Commands over the storage
  // ---------------------------------------------------------------------------

  /** The keys whose instance is of the class named `name`. */
  function Matching(view: map<string, Entity>, name: string): (keys: set<string>)
    ensures keys <= view.Keys
    ensures forall k :: k in keys <==> k in view && Name(view[k].cls) == name
  {
    set k | k in view && Name(view[k].cls) == name
  }

  /** Registering an instance of class `c` under a new key counts it once more for `c` and
      leaves the other classes' counts alone. */
  lemma MatchingInsert(view: map<string, Entity>, k: string, e: Entity, name: string)
    requires k !in view
    ensures |Matching(view[k := e], name)| ==
              |Matching(view, name)| + (if Name(e.cls) == name then 1 else 0)
  {
    if Name(e.cls) == name {
      assert Matching(view[k := e], name) == Matching(view, name) + {k};
    } else {
      assert Matching(view[k := e], name) == Matching(view, name);
    }
  }

  /** Removing a key counts its instance's class once less. */
  lemma MatchingRemove(view: map<string, Entity>, k: string, name: string)
    requires k in view
    ensures |Matching(view - {k}, name)| ==
              |Matching(view, name)| - (if Name(view[k].cls) == name then 1 else 0)
  {
    if Name(view[k].cls) == name {
      assert Matching(view, name) == Matching(view - {k}, name) + {k};
    } else {
      assert Matching(view - {k}, name) == Matching(view, name);
    }
  }

  /** `do_count(line)`: the number of instances whose class is named exactly `line`; a line
      that is not a class name is "class doesn't exist". */
  method DoCount(storage: FileStorage, line: string) returns (r: Result<nat, ConsoleError>)
    ensures line !in Classes() ==> r == Failure(ClassDoesntExist)
    ensures line in Classes() ==> r == Success(|Matching(storage.View(), line)|)
  {
    if line !in Classes() {
      return Failure(ClassDoesntExist);
    }
    var count := CountMatching(storage, line);
    r := Success(count);
  }

  /** The loop of `do_count`: one increment per registered instance of class `name`. */
  method CountMatching(storage: FileStorage, name: string) returns (count: nat)
    ensures count == |Matching(storage.View(), name)|
  {
    ghost var view := storage.View();
    storage.ViewKeys();
    count := 0;
    var remaining := storage.All().Keys;
    while remaining != {}
      invariant remaining <= storage.objects.Keys
      invariant count == |Matching(view, name) - remaining|
      decreases remaining
    {
      var k :| k in remaining;
      CountStep(view, name, remaining, k);
      remaining := remaining - {k};
      if Name(storage.objects[k].cls) == name {
        count := count + 1;
      }
    }
    assert Matching(view, name) - remaining == Matching(view, name);
  }

  /** Taking key `k` out of the keys still to visit counts it when it matches. */
  lemma CountStep(view: map<string, Entity>, name: string, remaining: set<string>, k: string)
    requires k in remaining && k in view
    ensures |Matching(view, name) - (remaining - {k})| ==
              |Matching(view, name) - remaining| + (if Name(view[k].cls) == name then 1 else 0)
  {
    var before := Matching(view, name) - remaining;
    if Name(view[k].cls) == name {
      assert Matching(view, name) - (remaining - {k}) == before + {k};
    } else {
      assert Matching(view, name) - (remaining - {k}) == before;
    }
  }

  /** `do_show(line)`: the instance under the checked key, as `__str__` renders it. */
  function Show(storage: FileStorage, line: string): (r: Result<Display, ConsoleError>)
    reads storage, storage.objects.Values
    ensures CheckClassAndId("show", line, storage.objects.Keys).Failure? ==>
              r == Failure(CheckClassAndId("show", line, storage.objects.Keys).error)
    ensures CheckClassAndId("show", line, storage.objects.Keys).Success? ==>
              var obj := storage.objects[CheckClassAndId("show", line, storage.objects.Keys).value];
              && (r.Success? <==> "id" in obj.attrs)
              && (r.Success? ==> r.value == Display(Name(obj.cls), obj.attrs["id"], obj.attrs))
              && (r.Failure? ==> r.error == Raised(MissingAttribute("id")))
  {
    match CheckClassAndId("show", line, storage.All().Keys)
    case Failure(e) => Failure(e)
    case Success(key) =>
      match storage.All()[key].Render()
      case Success(d) => Success(d)
      case Failure(e) => Failure(Raised(e))
  }

  /** Which instances `do_all(line)` lists: all of them for an empty line, those of the class
      named by the first word otherwise. */
  function AllFilter(line: string): (r: Result<Option<string>, ConsoleError>)
    ensures r == Success(None) <==> line == ""
    ensures r.Success? && r.value.Some? ==>
              Words(line) != [] && r.value.value == Words(line)[0] && r.value.value in Classes()
    ensures r.Failure? ==> r.error == IndexError || r.error == ClassDoesntExist
    ensures r == Failure(IndexError) <==> line != "" && Words(line) == []
    ensures r == Failure(ClassDoesntExist) <==>
              line != "" && Words(line) != [] && Words(line)[0] !in Classes()
    ensures line != "" && Words(line) != [] && Words(line)[0] in Classes() ==>
              r == Success(Some(Words(line)[0]))
  {
    if line == "" then Success(None)
    else if Words(line) == [] then Failure(IndexError)
    else if Words(line)[0] !in Classes() then Failure(ClassDoesntExist)
    else Success(Some(Words(line)[0]))
  }

  function Listed(view: map<string, Entity>, filter: Option<string>): (keys: set<string>)
    ensures keys <= view.Keys
    ensures filter.None? ==> keys == view.Keys
    ensures filter.Some? ==> keys == Matching(view, filter.value)
  {
    set k | k in view && (filter.None? || Name(view[k].cls) == filter.value)
  }

  /** `do_all(line)`: the rendering of every listed instance, each exactly once, in the
      order of the ghost `keys`; an instance without `id` raises AttributeError. */
  method DoAll(storage: FileStorage, line: string)
    returns (r: Result<seq<Display>, ConsoleError>, ghost keys: seq<string>)
    ensures AllFilter(line).Failure? ==> r == Failure(AllFilter(line).error)
    ensures AllFilter(line).Success? ==>
              var listed := Listed(storage.View(), AllFilter(line).value);
              && (r.Success? <==> forall k :: k in listed ==> "id" in storage.View()[k].attrs)
              && (r.Failure? ==> r.error == Raised(MissingAttribute("id")))
              && (r.Success? ==>
                    && |keys| == |r.value| == |listed|
                    && (forall i, j :: 0 <= i < j < |keys| ==> keys[i] != keys[j])
                    && (forall k :: k in listed <==> k in keys)
                    && (forall i :: 0 <= i < |keys| ==>
                          keys[i] in storage.objects &&
                          storage.objects[keys[i]].Render() == Success(r.value[i])))
  {
    var filter := AllFilter(line);
    if filter.Failure? {
      return Failure(filter.error), [];
    }
    r, keys := RenderAll(storage, filter.value);
  }

  /** The loop of `do_all` over the registry, rendering each instance the filter lets
      through. */
  method RenderAll(storage: FileStorage, filter: Option<string>)
    returns (r: Result<seq<Display>, ConsoleError>, ghost keys: seq<string>)
    ensures var listed := Listed(storage.View(), filter);
            && (r.Success? <==> forall k :: k in listed ==> "id" in storage.View()[k].attrs)
            && (r.Failure? ==> r.error == Raised(MissingAttribute("id")))
            && (r.Success? ==>
                  && |keys| == |r.value| == |listed|
                  && (forall i, j :: 0 <= i < j < |keys| ==> keys[i] != keys[j])
                  && (forall k :: k in listed <==> k in keys)
                  && (forall i :: 0 <= i < |keys| ==>
                        keys[i] in storage.objects &&
                        storage.objects[keys[i]].Render() == Success(r.value[i])))
  {
    ghost var listed := Listed(storage.View(), filter);
    storage.ViewKeys();
    var remaining := storage.All().Keys;
    var shown: seq<Display> := [];
    keys := [];
    while remaining != {}
      invariant remaining <= storage.objects.Keys
      invariant |keys| == |shown|
      invariant forall i :: 0 <= i < |keys| ==> keys[i] in listed && keys[i] !in remaining
      invariant forall i, j :: 0 <= i < j < |keys| ==> keys[i] != keys[j]
      invariant forall k :: k in listed && k !in remaining ==> k in keys
      invariant forall k :: k in listed && k !in remaining ==> "id" in storage.objects[k].attrs
      invariant forall i :: 0 <= i < |keys| ==> storage.objects[keys[i]].Render() == Success(shown[i])
      decreases remaining
    {
      var k :| k in remaining;
      remaining := remaining - {k};
      var obj := storage.objects[k];
      if filter.None? || Name(obj.cls) == filter.value {
        var d := obj.Render();
        if d.Failure? {
          return Failure(Raised(d.error)), keys;
        }
        shown := shown + [d.value];
        keys := keys + [k];
      }
    }
    ListedCount(keys, listed);
    r := Success(shown);
  }

  /** A sequence without repetitions whose elements are exactly those of a set has the
      set's size. */
  lemma {:induction false} ListedCount(keys: seq<string>, s: set<string>)
    requires forall i, j :: 0 <= i < j < |keys| ==> keys[i] != keys[j]
    requires forall k :: k in s <==> k in keys
    ensures |keys| == |s|
    decreases |keys|
  {
    if |keys| > 0 {
      var last := keys[|keys| - 1];
      var front := keys[..|keys| - 1];
      forall k ensures k in s - {last} <==> k in front {
        if k in front {
          var i :| 0 <= i < |front| && front[i] == k;
          assert keys[i] == k;
        }
        if k in keys && k != last {
          var i :| 0 <= i < |keys| && keys[i] == k;
          assert front[i] == k;
        }
      }
      ListedCount(front, s - {last});
    }
  }

  /** `do_destroy(line)`: exactly the checked key leaves the registry, then the registry is
      written. */
  method DoDestroy(storage: FileStorage, line: string) returns (r: Outcome<ConsoleError>)
    modifies storage`objects, storage`file
    ensures var checked := CheckClassAndId("destroy", line, old(storage.objects.Keys));
            && (checked.Failure? ==>
                  && r == Fail(checked.error)
                  && storage.objects == old(storage.objects)
                  && storage.file == old(storage.file))
            && (checked.Success? ==>
                  && r == Pass
                  && storage.objects == old(storage.objects) - {checked.value}
                  && storage.file == Some(Snapshot(storage.View())))
  {
    var checked := CheckClassAndId("destroy", line, storage.All().Keys);
    if checked.Failure? {
      return Fail(checked.error);
    }
    storage.objects := storage.objects - {checked.value};
    storage.Save();
    r := Pass;
  }

  /** Attribute names `setattr` refuses for a text or a number: `__class__` and `__dict__`
      (TypeError) and `__weakref__` (AttributeError). */
  const Unassignable: set<string> := {"__class__", "__dict__", "__weakref__"}

  /** `do_update(line)`: the named attribute of the instance under the checked key becomes
      the coerced value, then `save()` refreshes `updated_at` and writes the registry. No
      other instance changes, and the registry keeps its keys. */
  method DoUpdate(storage: FileStorage, line: string, now: DateTime) returns (r: Outcome<ConsoleError>)
    modifies storage`file, storage.objects.Values`attrs
    ensures UpdateArgsOf(line, old(storage.objects.Keys)).Failure? ==>
              r == Fail(UpdateArgsOf(line, old(storage.objects.Keys)).error)
    ensures UpdateArgsOf(line, old(storage.objects.Keys)).Success? ==>
              var u := UpdateArgsOf(line, old(storage.objects.Keys)).value;
              (u.name in Unassignable <==> r.Fail?) &&
              (u.name in Unassignable ==> r == Fail(Raised(ReadOnlyAttribute(u.name))))
    ensures r.Fail? ==> storage.file == old(storage.file)
    ensures r.Fail? ==> forall o :: o in old(storage.objects.Values) ==> o.attrs == old(o.attrs)
    ensures r.Pass? ==>
              var u := UpdateArgsOf(line, old(storage.objects.Keys)).value;
              var target := old(storage.objects)[u.key];
              && target.attrs == old(target.attrs)[u.name := Coerce(u.value)]["updated_at" := Time(now)]
              && (forall o :: o in old(storage.objects.Values) && o != target ==> o.attrs == old(o.attrs))
              && storage.file == Some(Snapshot(storage.View()))
  {
    var u := CheckUpdateArgs(line, storage.All().Keys);
    if u.Failure? {
      return Fail(u.error);
    }
    r := Assign(storage, u.value, now);
  }

  /** The `setattr` and `save()` of `do_update` once its arguments are checked: a name
      `setattr` refuses raises and changes nothing; any other name is set on the target
      alone, which is then saved. */
  method Assign(storage: FileStorage, u: UpdateArgs, now: DateTime) returns (r: Outcome<ConsoleError>)
    requires u.key in storage.objects
    modifies storage`file, storage.objects.Values`attrs
    ensures u.name in Unassignable <==> r.Fail?
    ensures r.Fail? ==> r == Fail(Raised(ReadOnlyAttribute(u.name)))
    ensures r.Fail? ==> storage.file == old(storage.file)
    ensures r.Fail? ==> forall o :: o in old(storage.objects.Values) ==> o.attrs == old(o.attrs)
    ensures r.Pass? ==>
              var target := old(storage.objects)[u.key];
              && target.attrs == old(target.attrs)[u.name := Coerce(u.value)]["updated_at" := Time(now)]
              && (forall o :: o in old(storage.objects.Values) && o != target ==> o.attrs == old(o.attrs))
              && storage.file == Some(Snapshot(storage.View()))
  {
    if u.name in Unassignable {
      return Fail(Raised(ReadOnlyAttribute(u.name)));
    }
    var obj := storage.objects[u.key];
    obj.attrs := obj.attrs[u.name := Coerce(u.value)];
    obj.Save(storage, now);
    r := Pass;
  }

  /** An update of any name but `created_at` and `self` leaves the attributes in the shape
      `save` and `reload` round-trip: the coerced value is never a `datetime`, and
      `updated_at` is refreshed from the clock afterwards. */
  lemma UpdateKeepsWellFormed(attrs: Attrs, name: string, value: string, now: DateTime)
    requires WellFormed(attrs) && name !in Unassignable && name != "created_at" && name != SelfKey
    ensures WellFormed(attrs[name := Coerce(value)]["updated_at" := Time(now)])
  {
    var v := Coerce(value);
    assert !v.Time? && Serializable(Encode(v));
    var updated := attrs[name := v]["updated_at" := Time(now)];
    forall k | k in updated
      ensures (updated[k].Time? <==> k in TimestampKeys) && Serializable(Encode(updated[k]))
    {
      if k != "updated_at" && k != name {
        assert updated[k] == attrs[k];
      }
    }
  }

  /** Updating `created_at` with a number, or with text that does not begin with a
      four-digit year (which `fromisoformat` rejects in every form it accepts), is accepted,
      but the record `save` then writes for the instance cannot be rebuilt by `reload`. */
  lemma UpdatedCreatedAtBreaksReload(c: ClassName, attrs: Attrs, value: string, now: DateTime)
    requires !Coerce(value).Str? || |value| < 4 || !AllDigits(value[..4])
    ensures !Rebuildable(ToDict(c, attrs["created_at" := Coerce(value)]["updated_at" := Time(now)]))
  {
    var updated := attrs["created_at" := Coerce(value)]["updated_at" := Time(now)];
    ToDictValues(c, updated);
    var rec := ToDict(c, updated);
    assert rec["created_at"] == Coerce(value);
    if Coerce(value).Str? && (|value| == 19 || |value| == 26) {
      assert value[0..4] == value[..4];
      assert Field(value, 0, 4).None?;
    }
    assert AttrProblem("created_at", rec["created_at"]).Some?;
  }

  /** `update <class> <id> self <value>` is accepted and saved, but the record written for
      the instance then makes `reload` raise TypeError: `self` cannot be passed as a keyword
      to `__init__`. */
  lemma UpdatedSelfBreaksReload(c: ClassName, attrs: Attrs, value: string, now: DateTime)
    ensures SelfKey !in Unassignable
    ensures var rec := ToDict(c, attrs[SelfKey := Coerce(value)]["updated_at" := Time(now)]);
            !Rebuildable(rec) && IsRecordProblem(rec, SelfArgument)
  {
    var rec := ToDict(c, attrs[SelfKey := Coerce(value)]["updated_at" := Time(now)]);
    DispatchName(c);
    SelfKeyword(rec);
  }

  /** `do_create(line)`: a fresh instance of the named class, registered under
      `<class>.<id>` and saved; the reply is its id. */
  method DoCreate(storage: FileStorage, line: string, id: string,
                  createdAt: DateTime, updatedAt: DateTime, now: DateTime)
    returns (r: Result<string, ConsoleError>, ghost created: BaseModel?)
    modifies storage`objects, storage`file
    ensures var checked := CheckClassAndId("create", line, old(storage.objects.Keys));
            && (checked.Failure? ==>
                  && r == Failure(checked.error)
                  && storage.objects == old(storage.objects)
                  && storage.file == old(storage.file))
            && (checked.Success? ==>
                  && r == Success(id)
                  && created != null && fresh(created)
                  && created.cls == Classes()[checked.value]
                  && created.attrs == FreshAttrs(id, createdAt, updatedAt)["updated_at" := Time(now)]
                  && storage.objects == old(storage.objects)[Key(created.cls, Str(id)) := created]
                  && checked.value + "." + id in storage.objects
                  && storage.file == Some(Snapshot(storage.View())))
  {
    var checked := CheckClassAndId("create", line, storage.All().Keys);
    if checked.Failure? {
      return Failure(checked.error), null;
    }
    var c := Classes()[checked.value];
    var made := BaseModel.Create(c, map[], id, createdAt, updatedAt, storage);
    var obj := made.value;
    obj.Save(storage, now);
    created := obj;
    assert Name(c) == checked.value;
    r := Success(id);
  }

  /** What a dotted command replies. */
  datatype Reply =
    | Done
    | Shown(display: Display)
    | ListedAll(displays: seq<Display>)
    | Counted(count: nat)
    | Created(id: string)

  /** The Python exception class a console error is raised as; None for the messages the
      commands print instead of raising. */
  function ExceptionOf(e: ConsoleError): Option<string> {
    match e
    case IndexError => Some("IndexError")
    case Raised(err) => Some(ExceptionName(err))
    case _ => None
  }

  /** `default` reports IndexError and AttributeError as Unknown syntax; other errors pass
      as they are. */
  function Caught(e: ConsoleError): (r: ConsoleError)
    ensures ExceptionOf(e) == Some("IndexError") || ExceptionOf(e) == Some("AttributeError") ==>
              r == UnknownSyntax
    ensures !(ExceptionOf(e) == Some("IndexError") || ExceptionOf(e) == Some("AttributeError")) ==>
              r == e
  {
    if e == IndexError then UnknownSyntax
    else if e.Raised? && e.error.MissingAttribute? then UnknownSyntax
    else if e == Raised(ReadOnlyAttribute("__weakref__")) then UnknownSyntax
    else e
  }

  /** One routed command run on its argument line, as `default` calls it: the reply of
      `quit`, `EOF` and `help` is discarded, so a dotted `quit()` does not end the loop. */
  method Run(storage: FileStorage, inv: Invocation, id: string,
             createdAt: DateTime, updatedAt: DateTime, now: DateTime)
    returns (r: Result<Reply, ConsoleError>)
    modifies storage`objects, storage`file, storage.objects.Values`attrs
    ensures inv.command in {QuitCmd, EOFCmd, HelpCmd} ==>
              && r == Success(Done)
              && storage.objects == old(storage.objects)
              && storage.file == old(storage.file)
    ensures inv.command == CountCmd ==>
              && storage.objects == old(storage.objects)
              && storage.file == old(storage.file)
              && r == (if inv.argLine in Classes()
                       then Success(Counted(|Matching(old(storage.View()), inv.argLine)|))
                       else Failure(ClassDoesntExist))
    ensures inv.command == ShowCmd ==>
              var shown := old(Show(storage, inv.argLine));
              && storage.objects == old(storage.objects)
              && storage.file == old(storage.file)
              && r == (if shown.Success? then Success(Shown(shown.value)) else Failure(Caught(shown.error)))
    ensures inv.command == DestroyCmd ==>
              var checked := CheckClassAndId("destroy", inv.argLine, old(storage.objects.Keys));
              && (checked.Failure? ==>
                    && r == Failure(Caught(checked.error))
                    && storage.objects == old(storage.objects)
                    && storage.file == old(storage.file))
              && (checked.Success? ==>
                    && r == Success(Done)
                    && storage.objects == old(storage.objects) - {checked.value}
                    && storage.file == Some(Snapshot(storage.View())))
    ensures inv.command == CreateCmd ==>
              var checked := CheckClassAndId("create", inv.argLine, old(storage.objects.Keys));
              && (checked.Failure? ==>
                    && r == Failure(Caught(checked.error))
                    && storage.objects == old(storage.objects)
                    && storage.file == old(storage.file))
              && (checked.Success? ==>
                    var key := Key(Classes()[checked.value], Str(id));
                    && r == Success(Created(id))
                    && key in storage.objects
                    && fresh(storage.objects[key])
                    && storage.objects[key].cls == Classes()[checked.value]
                    && storage.objects[key].attrs ==
                         FreshAttrs(id, createdAt, updatedAt)["updated_at" := Time(now)]
                    && storage.objects == old(storage.objects)[key := storage.objects[key]]
                    && storage.file == Some(Snapshot(storage.View())))
  {
    var arg := inv.argLine;
    match inv.command
    case QuitCmd => r := Success(Done);
    case EOFCmd => r := Success(Done);
    case HelpCmd => r := Success(Done);
    case CountCmd =>
      var n := DoCount(storage, arg);
      r := if n.Success? then Success(Counted(n.value)) else Failure(Caught(n.error));
    case ShowCmd =>
      var shown := Show(storage, arg);
      r := if shown.Success? then Success(Shown(shown.value)) else Failure(Caught(shown.error));
    case DestroyCmd =>
      var done := DoDestroy(storage, arg);
      r := if done.Pass? then Success(Done) else Failure(Caught(done.error));
    case AllCmd =>
      var listed, keys := DoAll(storage, arg);
      r := if listed.Success? then Success(ListedAll(listed.value)) else Failure(Caught(listed.error));
    case UpdateCmd =>
      var done := DoUpdate(storage, arg, now);
      r := if done.Pass? then Success(Done) else Failure(Caught(done.error));
    case CreateCmd =>
      var made, obj := DoCreate(storage, arg, id, createdAt, updatedAt, now);
      r := if made.Success? then Success(Created(made.value)) else Failure(Caught(made.error));
  }

  /** `default(line)`: the dotted `<class>.<command>(<args>)` syntax. A line that does not
      route is Unknown syntax and changes nothing; otherwise the command runs on its
      argument line. The dictionary form of `update` is not part of this model. */
  method Default(storage: FileStorage, line: string, id: string,
                 createdAt: DateTime, updatedAt: DateTime, now: DateTime)
    returns (r: Result<Reply, ConsoleError>)
    modifies storage`objects, storage`file, storage.objects.Values`attrs
    ensures Route(line).Failure? ==>
              && r == Failure(UnknownSyntax)
              && storage.objects == old(storage.objects)
              && storage.file == old(storage.file)
    ensures Route(line).Success? ==>
              var inv := Route(line).value;
              && (inv.command in {QuitCmd, EOFCmd, HelpCmd} ==>
                    && r == Success(Done)
                    && storage.objects == old(storage.objects)
                    && storage.file == old(storage.file))
              && (inv.command == CountCmd ==>
                    && storage.objects == old(storage.objects)
                    && storage.file == old(storage.file)
                    && r == (if inv.argLine in Classes()
                             then Success(Counted(|Matching(old(storage.View()), inv.argLine)|))
                             else Failure(ClassDoesntExist)))
              && (inv.command == ShowCmd ==>
                    var shown := old(Show(storage, inv.argLine));
                    && storage.objects == old(storage.objects)
                    && storage.file == old(storage.file)
                    && r == (if shown.Success? then Success(Shown(shown.value))
                             else Failure(Caught(shown.error))))
              && (inv.command == DestroyCmd ==>
                    var checked := CheckClassAndId("destroy", inv.argLine, old(storage.objects.Keys));
                    && (checked.Failure? ==>
                          && r == Failure(Caught(checked.error))
                          && storage.objects == old(storage.objects)
                          && storage.file == old(storage.file))
                    && (checked.Success? ==>
                          && r == Success(Done)
                          && storage.objects == old(storage.objects) - {checked.value}
                          && storage.file == Some(Snapshot(storage.View()))))
              && (inv.command == CreateCmd ==>
                    var checked := CheckClassAndId("create", inv.argLine, old(storage.objects.Keys));
                    && (checked.Failure? ==>
                          && r == Failure(Caught(checked.error))
                          && storage.objects == old(storage.objects)
                          && storage.file == old(storage.file))
                    && (checked.Success? ==>
                          var key := Key(Classes()[checked.value], Str(id));
                          && r == Success(Created(id))
                          && key in storage.objects
                          && fresh(storage.objects[key])
                          && storage.objects[key].cls == Classes()[checked.value]
                          && storage.objects[key].attrs ==
                               FreshAttrs(id, createdAt, updatedAt)["updated_at" := Time(now)]
                          && storage.objects == old(storage.objects)[key := storage.objects[key]]
                          && storage.file == Some(Snapshot(storage.View()))))
  {
    var route := Route(line);
    if route.Failure? {
      return Failure(UnknownSyntax);
    }
    r := Run(storage, route.value, id, createdAt, updatedAt, now);
  }
}
