/** The command-line parser: registered options, the scan of the argument vector with
    its two carried flags, and a printer that the scan inverts. */
module CommandLine {
  import opened Kernel

  /** A C string holds no NUL; reading one past its end gives NUL. */
  type CString = s: string | '\0' !in s

  type CChar = c: char | c != '\0' witness 'a'

  datatype Value = Number(n: int) | Text(s: string)

  /** An option object. `Plain` is `optionBase`, whose `set` does nothing. `cast` is
      `lexical_cast` for the option's type; it may fail. */
  datatype Opt =
    | Plain
    | Typed(cast: string -> Option<Value>, limiter: Value -> bool, default: Option<Value>, input: Option<Value>)

  datatype Error =
    | NoSuchName | NoSuchShort | BadCast | LimitRejected | DefaultRejected | ShortTaken | NoValue
    | NullDereference  // a lookup result used without a check

  /** `options`, `nameMap` and `sname_is_unique`. */
  datatype Table = Table(options: map<string, Opt>, shorts: map<char, string>, unique: bool)

  /** What an operation leaves behind, and what it threw. */
  datatype Outcome = Outcome(table: Table, error: Option<Error>)

  // ---- Options ------------------------------------------------------------------

  /** `option::set`, by the dynamic type of the object. */
  function SetOpt(o: Opt, value: string): (Opt, Option<Error>) {
    if o.Plain? then (o, None)
    else
      match o.cast(value)
      case None => (o, Some(BadCast))
      case Some(v) => if o.limiter(v) then (o.(input := Some(v)), None) else (o, Some(LimitRejected))
  }

  function SetLongName(t: Table, name: string, value: string): Outcome {
    if name !in t.options then Outcome(t, Some(NoSuchName))
    else
      var (o, e) := SetOpt(t.options[name], value);
      Outcome(t.(options := t.options[name := o]), e)
  }

  /** `set(char, ...)` follows `nameMap` into `options` without a second check. */
  function SetShortName(t: Table, c: char, value: string): Outcome {
    if c !in t.shorts then Outcome(t, Some(NoSuchShort))
    else if t.shorts[c] !in t.options then Outcome(t, Some(NullDereference))
    else SetLongName(t, t.shorts[c], value)
  }

  /** `add_name_sanme`. */
  function AddShort(t: Table, name: string, c: char): Outcome {
    if c in t.shorts && t.unique then Outcome(t, Some(ShortTaken))
    else Outcome(t.(shorts := t.shorts[c := name]), None)
  }

  /** `add`: the option stays registered even when the short name is refused. */
  function Add(t: Table, name: string, c: char, o: Opt): Outcome {
    if o.Typed? && o.default.Some? && !o.limiter(o.default.value) then Outcome(t, Some(DefaultRejected))
    else AddShort(if name in t.options then t else t.(options := t.options[name := o]), name, c)
  }

  /** `get`: of an option registered without a type it dereferences a null pointer. */
  function Get(t: Table, name: string): (Option<Value>, Option<Error>) {
    if name !in t.options then (None, Some(NoSuchName))
    else
      match t.options[name]
      case Plain => (None, Some(NullDereference))
      case Typed(_, _, default, input) =>
        if input.Some? then (input, None)
        else if default.Some? then (default, None)
        else (None, Some(NoValue))
  }

  /** Every short name leads to a registered option, and every stored value meets its
      option's limiter. */
  ghost predicate Sound(t: Table) {
    && (forall c :: c in t.shorts ==> t.shorts[c] in t.options)
    && (forall name :: name in t.options && t.options[name].Typed? ==> SoundOpt(t.options[name]))
  }

  ghost predicate SoundOpt(o: Opt)
    requires o.Typed?
  {
    && (o.input.Some? ==> o.limiter(o.input.value))
    && (o.default.Some? ==> o.limiter(o.default.value))
  }

  lemma AddIsSound(t: Table, name: string, c: char, o: Opt)
    requires Sound(t) && (o.Typed? ==> o.input.None?)
    ensures Sound(Add(t, name, c, o).table)
  {
  }

  /** After `add`, the short name leads to the option if it was free or may be shared; the
      option exists even when the short name is refused; a new one gives its default, an
      old one stays as it was, and so does every other option. */
  lemma AddRegisters(t: Table, name: string, c: char, o: Opt)
    requires o.Typed? ==> o.input.None?
    ensures var (t', e) := (Add(t, name, c, o).table, Add(t, name, c, o).error);
            if o.Typed? && o.default.Some? && !o.limiter(o.default.value) then e == Some(DefaultRejected) && t' == t
            else
              && e == (if c in t.shorts && t.unique then Some(ShortTaken) else None)
              && t'.options.Keys == t.options.Keys + {name}
              && (forall n :: n in t.options ==> t'.options[n] == t.options[n])
              && (name !in t.options && o.Typed? ==>
                    Get(t', name) == (o.default, if o.default.Some? then None else Some(NoValue)))
              && (forall d :: d in t'.shorts <==> d in t.shorts || d == c)
              && (forall d :: d in t.shorts && (d != c || e.Some?) ==> t'.shorts[d] == t.shorts[d])
              && (e.None? ==> t'.shorts[c] == name)
  {
  }

  // ---- Scanning --------------------------------------------------------------------

  datatype Action = SetLong(name: string, value: string) | SetShort(short: char, value: string)

  /** `is_key`, `is_sname`, `name` and `sname`, which live across arguments. */
  datatype Flags = Flags(isKey: bool, isSname: bool, name: string, sname: char)

  const NO_FLAGS := Flags(false, false, "", '\0')

  datatype Scanned = Scanned(actions: seq<Action>, ok: bool)

  predicate Dashed(a: string) {
    |a| > 0 && a[0] == '-'
  }

  predicate DoubleDashed(a: string) {
    |a| > 1 && a[0] == '-' && a[1] == '-'
  }

  /** Position of the first '=' at or after `from`, or the length: `strchr`. */
  function FindEq(a: string, from: nat): (p: nat)
    requires from <= |a|
    ensures from <= p <= |a|
    ensures forall i :: from <= i < p ==> a[i] != '='
    ensures p < |a| ==> a[p] == '='
    decreases |a| - from
  {
    if from == |a| || a[from] == '=' then from else FindEq(a, from + 1)
  }

  /** `--name=value` and `-c=value`. */
  predicate LongAssigns(a: string) {
    DoubleDashed(a) && FindEq(a, 2) < |a|
  }

  predicate ShortAssigns(a: string) {
    Dashed(a) && !DoubleDashed(a) && |a| > 2 && FindEq(a, 1) == 2
  }

  /** The character after the dash; a lone dash reads the terminator. */
  function ShortOf(a: string): char {
    if |a| > 1 then a[1] else '\0'
  }

  /** The flags after the head of the loop looked at an argument that assigns nothing. */
  function Noted(a: string, f: Flags): Flags {
    if DoubleDashed(a) then f.(isKey := true, name := a[2..])
    else if Dashed(a) then f.(isKey := true, isSname := true, sname := ShortOf(a))
    else f
  }

  function Prefixed(actions: seq<Action>, s: Scanned): Scanned {
    Scanned(actions + s.actions, s.ok)
  }

  /** The loop of `parse` from one argument on: the assignments it makes and what it
      returns, as far as none of them throws. */
  function Scan(args: seq<string>, f: Flags): Scanned
    decreases |args|
  {
    if args == [] then Scanned([], true)
    else
      var a := args[0];
      if LongAssigns(a) then
        var p := FindEq(a, 2);
        Prefixed([SetLong(a[2..p], a[p + 1..])], Scan(args[1..], f.(isKey := false, name := a[2..p])))
      else if ShortAssigns(a) then
        Prefixed([SetShort(a[1], a[3..])], Scan(args[1..], f.(isKey := false, sname := a[1])))
      else
        var f1 := Noted(a, f);
        if !f1.isKey then Scanned([], false)
        else if |args| > 1 && !Dashed(args[1]) then
          if f1.isSname then
            Prefixed([SetShort(f1.sname, args[1])], Scan(args[2..], f1.(isKey := false, isSname := false)))
          else
            Prefixed([SetLong(f1.name, args[1])], Scan(args[2..], f1.(isKey := false)))
        else Scan(args[1..], f1)
  }

  function Perform(t: Table, a: Action): Outcome {
    match a
    case SetLong(name, value) => SetLongName(t, name, value)
    case SetShort(c, value) => SetShortName(t, c, value)
  }

  datatype Parsed = Returned(ok: bool) | Thrown(error: Error)

  /** Folding the assignments over the table, up to the first that throws. */
  function Finish(t: Table, s: Scanned): (Table, Parsed)
    decreases |s.actions|
  {
    if s.actions == [] then (t, Returned(s.ok))
    else
      var o := Perform(t, s.actions[0]);
      match o.error
      case Some(e) => (o.table, Thrown(e))
      case None => Finish(o.table, Scanned(s.actions[1..], s.ok))
  }

  /** What is left to do after one assignment. */
  function Continue(o: Outcome, s: Scanned): (Table, Parsed) {
    if o.error.Some? then (o.table, Thrown(o.error.value)) else Finish(o.table, s)
  }

  /** What one turn of the loop leaves to do. */
  lemma ReadsOne(t: Table, args: seq<string>, f: Flags)
    requires args != []
    ensures var a := args[0]; var f1 := Noted(a, f); var rest := args[1..];
            var result := Finish(t, Scan(args, f));
            if LongAssigns(a) then
              var p := FindEq(a, 2);
              result == Continue(SetLongName(t, a[2..p], a[p + 1..]), Scan(rest, f.(isKey := false, name := a[2..p])))
            else if ShortAssigns(a) then
              result == Continue(SetShortName(t, a[1], a[3..]), Scan(rest, f.(isKey := false, sname := a[1])))
            else if !f1.isKey then result == (t, Returned(false))
            else if |args| > 1 && !Dashed(args[1]) then
              result == Continue(if f1.isSname then SetShortName(t, f1.sname, args[1]) else SetLongName(t, f1.name, args[1]),
                                 Scan(args[2..], f1.(isKey := false, isSname := false)))
            else result == Finish(t, Scan(rest, f1))
  {
  }

  lemma ScanEnds()
    ensures forall t: Table, f: Flags :: Finish(t, Scan([], f)) == (t, Returned(true))
  {
  }

  lemma NotedIs(a: string, f: Flags)
    ensures Noted(a, f) ==
            if DoubleDashed(a) then f.(isKey := true, name := a[2..])
            else if Dashed(a) then f.(isKey := true, isSname := true, sname := ShortOf(a))
            else f
  {
  }

  function WithProgram(t: Table): Table {
    t.(options := t.options["program" := Plain])
  }

  /** `parse`. */
  function Parse(t: Table, argv: seq<string>): (Table, Parsed) {
    if argv == [] then (t, Returned(false))
    else Finish(WithProgram(t), Scan(argv[1..], NO_FLAGS))
  }

  // ---- What parsing keeps --------------------------------------------------------------

  lemma PerformIsSound(t: Table, a: Action)
    requires Sound(t)
    ensures Sound(Perform(t, a).table) && Perform(t, a).error != Some(NullDereference)
  {
  }

  lemma {:induction false} FinishIsSound(t: Table, s: Scanned)
    requires Sound(t)
    ensures Sound(Finish(t, s).0) && Finish(t, s).1 != Thrown(NullDereference)
    decreases |s.actions|
  {
    if s.actions != [] {
      PerformIsSound(t, s.actions[0]);
      var o := Perform(t, s.actions[0]);
      if o.error.None? { FinishIsSound(o.table, Scanned(s.actions[1..], s.ok)); }
    }
  }

  /** After parsing any argument vector, completely or up to an exception, every short
      name still leads to a registered option, and whatever `get` returns meets its
      option's limiter. */
  lemma ParseIsSound(t: Table, argv: seq<string>)
    requires Sound(t)
    ensures var (t', r) := Parse(t, argv);
            && Sound(t') && r != Thrown(NullDereference)
            && forall name :: name in t'.options && t'.options[name].Typed? && Get(t', name).0.Some?
                              ==> t'.options[name].limiter(Get(t', name).0.value)
  {
    if argv != [] {
      assert Sound(WithProgram(t));
      FinishIsSound(WithProgram(t), Scan(argv[1..], NO_FLAGS));
    }
  }

  // ---- The printer -----------------------------------------------------------------------

  datatype Assignment =
    | LongEq(name: CString, value: CString)      // --name=value
    | LongSpaced(name: CString, value: CString)  // --name value
    | ShortEq(short: CChar, value: CString)      // -c=value
    | ShortSpaced(short: CChar, value: CString)  // -c value

  function Print(a: Assignment): seq<string> {
    match a
    case LongEq(name, value) => ["--" + name + "=" + value]
    case LongSpaced(name, value) => ["--" + name, value]
    case ShortEq(c, value) => ["-" + [c] + "=" + value]
    case ShortSpaced(c, value) => ["-" + [c], value]
  }

  function Meaning(a: Assignment): Action {
    match a
    case LongEq(name, value) => SetLong(name, value)
    case LongSpaced(name, value) => SetLong(name, value)
    case ShortEq(c, value) => SetShort(c, value)
    case ShortSpaced(c, value) => SetShort(c, value)
  }

  /** What a caller must avoid: '=' in a long name, '-' as a short name, '=' as a short
      name before an attached value, and a detached value that looks like an option. */
  predicate Printable(a: Assignment) {
    match a
    case LongEq(name, _) => '=' !in name
    case LongSpaced(name, value) => '=' !in name && !Dashed(value)
    case ShortEq(c, _) => c != '=' && c != '-'
    case ShortSpaced(c, value) => c != '-' && !Dashed(value)
  }

  function PrintAll(list: seq<Assignment>): seq<string> {
    if list == [] then [] else Print(list[0]) + PrintAll(list[1..])
  }

  function Meanings(list: seq<Assignment>): seq<Action> {
    if list == [] then [] else [Meaning(list[0])] + Meanings(list[1..])
  }

  lemma FindEqIs(a: string, from: nat, p: nat)
    requires from <= p < |a| && a[p] == '=' && forall i :: from <= i < p ==> a[i] != '='
    ensures FindEq(a, from) == p
  {
  }

  lemma NoEqFound(a: string, from: nat)
    requires from <= |a| && '=' !in a[from..]
    ensures FindEq(a, from) == |a|
  {
  }

  /** With no short name pending, a printable assignment is read back as one assignment
      and leaves nothing pending. */
  lemma PrintedIsRead(a: Assignment, rest: seq<string>, f: Flags)
    requires Printable(a) && !f.isSname
    ensures exists f': Flags :: !f'.isSname && !f'.isKey && Scan(Print(a) + rest, f) == Prefixed([Meaning(a)], Scan(rest, f'))
  {
    var args := Print(a) + rest;
    match a
    case LongEq(name, value) =>
      var s := "--" + name + "=" + value;
      FindEqIs(s, 2, 2 + |name|);
      assert s[2..2 + |name|] == name && s[2 + |name| + 1..] == value;
      assert args[0] == s && args[1..] == rest;
      assert Scan(args, f) == Prefixed([Meaning(a)], Scan(rest, f.(isKey := false, name := name)));
    case LongSpaced(name, value) =>
      var s := "--" + name;
      assert s[2..] == name;
      assert args[0] == s && args[1] == value && args[2..] == rest;
      NoEqFound(s, 2);
      assert Scan(args, f) == Prefixed([Meaning(a)], Scan(rest, f.(isKey := false, name := name)));
    case ShortEq(c, value) =>
      var s := "-" + [c] + "=" + value;
      FindEqIs(s, 1, 2);
      assert s[3..] == value && s[1] == c && s[0] == '-';
      assert args[0] == s && args[1..] == rest;
      assert Scan(args, f) == Prefixed([Meaning(a)], Scan(rest, f.(isKey := false, sname := c)));
    case ShortSpaced(c, value) =>
      var s := "-" + [c];
      assert |s| == 2 && s[1] == c;
      assert args[0] == s && args[1] == value && args[2..] == rest;
      assert Scan(args, f) == Prefixed([Meaning(a)], Scan(rest, f.(isKey := false, isSname := false, sname := c)));
  }

  lemma {:induction false} PrintedAreRead(list: seq<Assignment>, f: Flags)
    requires (forall i :: 0 <= i < |list| ==> Printable(list[i])) && !f.isSname
    ensures Scan(PrintAll(list), f) == Scanned(Meanings(list), true)
    decreases |list|
  {
    if list != [] {
      PrintedIsRead(list[0], PrintAll(list[1..]), f);
      var f': Flags :| !f'.isSname && !f'.isKey
                && Scan(Print(list[0]) + PrintAll(list[1..]), f) == Prefixed([Meaning(list[0])], Scan(PrintAll(list[1..]), f'));
      PrintedAreRead(list[1..], f');
    }
  }

  /** Round trip: parsing the printed form of any list of printable assignments, in any
      mix of the four spellings, folds exactly those assignments over the table in order;
      it returns true unless one of them throws. */
  lemma ParseInvertsPrint(t: Table, program: string, list: seq<Assignment>)
    requires forall i :: 0 <= i < |list| ==> Printable(list[i])
    ensures Parse(t, [program] + PrintAll(list)) == Finish(WithProgram(t), Scanned(Meanings(list), true))
  {
    assert ([program] + PrintAll(list))[1..] == PrintAll(list);
    PrintedAreRead(list, NO_FLAGS);
  }

  // ---- What the program finds afterwards -------------------------------------------------

  /** The option an assignment means, by its long or its short name. */
  function Target(t: Table, a: Assignment): Option<string> {
    match a
    case LongEq(name, _) => if name in t.options then Some(name) else None
    case LongSpaced(name, _) => if name in t.options then Some(name) else None
    case ShortEq(c, _) => if c in t.shorts && t.shorts[c] in t.options then Some(t.shorts[c]) else None
    case ShortSpaced(c, _) => if c in t.shorts && t.shorts[c] in t.options then Some(t.shorts[c]) else None
  }

  /** The option takes the value: an untyped one ignores it, a typed one must be able to
      read it and its limiter must agree. */
  predicate Takes(o: Opt, value: string) {
    o.Typed? ==> o.cast(value).Some? && o.limiter(o.cast(value).value)
  }

  predicate Works(t: Table, a: Assignment) {
    Target(t, a).Some? && Takes(t.options[Target(t, a).value], a.value)
  }

  /** What is thrown for an assignment that does not work. */
  function Complaint(t: Table, a: Assignment): Error
    requires !Works(t, a)
  {
    match Target(t, a)
    case Some(name) => if t.options[name].Typed? && t.options[name].cast(a.value).Some? then LimitRejected else BadCast
    case None =>
      if a.LongEq? || a.LongSpaced? then NoSuchName
      else if a.short in t.shorts then NullDereference
      else NoSuchShort
  }

  /** How many assignments come before the first that does not work. */
  function Working(t: Table, list: seq<Assignment>): (n: nat)
    ensures n <= |list|
    ensures forall i :: 0 <= i < n ==> Works(t, list[i])
    ensures n < |list| ==> !Works(t, list[n])
  {
    if list == [] || !Works(t, list[0]) then 0 else 1 + Working(t, list[1..])
  }

  /** The last value assigned to an option. */
  function LastValue(t: Table, list: seq<Assignment>, name: string): Option<string>
    decreases |list|
  {
    if list == [] then None
    else if Target(t, list[|list| - 1]) == Some(name) then Some(list[|list| - 1].value)
    else LastValue(t, list[..|list| - 1], name)
  }

  /** Two tables differ at most in the stored values. */
  ghost predicate SameShape(t: Table, t': Table) {
    && t'.shorts == t.shorts && t'.unique == t.unique && t'.options.Keys == t.options.Keys
    && forall name :: name in t.options ==> SameKind(t.options[name], t'.options[name])
  }

  ghost predicate SameKind(o: Opt, o': Opt) {
    if o.Plain? then o' == o else o'.Typed? && o' == o.(input := o'.input)
  }

  /** `t'` is `t` after the assignments of `list`: every typed option has the last value
      assigned to it, or what it had. */
  ghost predicate Reflects(t: Table, t': Table, list: seq<Assignment>) {
    && SameShape(t, t')
    && forall name :: name in t.options && t.options[name].Typed? ==>
         Get(t', name) == (match LastValue(t, list, name)
                           case Some(v) => (t.options[name].cast(v), None)
                           case None => Get(t, name))
  }

  /** One assignment stores its value with its option, or throws and stores nothing. */
  lemma PerformStores(t: Table, a: Assignment)
    ensures var o := Perform(t, Meaning(a));
            if Works(t, a) then o.error.None? && Reflects(t, o.table, [a])
            else o.error == Some(Complaint(t, a)) && o.table == t
  {
    assert [a][..0] == [];
  }

  lemma SameTarget(t: Table, t': Table, a: Assignment)
    requires SameShape(t, t')
    ensures Target(t', a) == Target(t, a)
    ensures Works(t', a) <==> Works(t, a)
    ensures !Works(t, a) ==> Complaint(t', a) == Complaint(t, a)
  {
  }

  lemma {:induction false} SameLast(t: Table, t': Table, list: seq<Assignment>, name: string)
    requires SameShape(t, t')
    ensures LastValue(t', list, name) == LastValue(t, list, name)
    decreases |list|
  {
    if list != [] {
      SameTarget(t, t', list[|list| - 1]);
      SameLast(t, t', list[..|list| - 1], name);
    }
  }

  lemma {:induction false} LastOf(t: Table, a: Assignment, list: seq<Assignment>, name: string)
    ensures LastValue(t, [a] + list, name) ==
            (if LastValue(t, list, name).Some? then LastValue(t, list, name) else LastValue(t, [a], name))
    decreases |list|
  {
    if list == [] {
      assert [a] + list == [a];
    } else {
      assert ([a] + list)[..|list|] == [a] + list[..|list| - 1];
      LastOf(t, a, list[..|list| - 1], name);
    }
  }

  lemma ReflectsThen(t: Table, t1: Table, t2: Table, a: Assignment, list: seq<Assignment>)
    requires Reflects(t, t1, [a]) && Reflects(t1, t2, list)
    ensures Reflects(t, t2, [a] + list)
  {
    hide Get;
    forall name | name in t.options && t.options[name].Typed?
      ensures Get(t2, name) == (match LastValue(t, [a] + list, name)
                                case Some(v) => (t.options[name].cast(v), None)
                                case None => Get(t, name))
    {
      LastOf(t, a, list, name);
      SameLast(t, t1, list, name);
    }
  }

  lemma {:induction false} SameWorking(t: Table, t': Table, list: seq<Assignment>)
    requires SameShape(t, t')
    ensures Working(t', list) == Working(t, list)
    decreases |list|
  {
    if list != [] {
      SameTarget(t, t', list[0]);
      SameWorking(t, t', list[1..]);
    }
  }

  lemma {:induction false} FinishStores(t: Table, list: seq<Assignment>)
    ensures var n := Working(t, list); var (t', r) := Finish(t, Scanned(Meanings(list), true));
            && Reflects(t, t', list[..n])
            && r == (if n == |list| then Returned(true) else Thrown(Complaint(t, list[n])))
    decreases |list|
  {
    hide Perform, Reflects, Works, Complaint, SameShape, Target;
    if list == [] {
      NothingStored(t);
    } else {
      PerformStores(t, list[0]);
      FinishFirst(t, list);
      if Works(t, list[0]) {
        FinishStores(Perform(t, Meaning(list[0])).table, list[1..]);
        WorkingNext(t, Perform(t, Meaning(list[0])).table, list);
      } else {
        NothingStored(t);
        assert list[..0] == [];
      }
    }
  }

  lemma FinishFirst(t: Table, list: seq<Assignment>)
    requires list != []
    ensures var o := Perform(t, Meaning(list[0]));
            Finish(t, Scanned(Meanings(list), true)) ==
            if o.error.Some? then (o.table, Thrown(o.error.value)) else Finish(o.table, Scanned(Meanings(list[1..]), true))
  {
    hide Perform;
    assert Meanings(list)[1..] == Meanings(list[1..]);
  }

  /** The first assignment, then the rest as the table left by the first sees it. */
  lemma WorkingNext(t: Table, t1: Table, list: seq<Assignment>)
    requires list != [] && Works(t, list[0]) && Reflects(t, t1, [list[0]])
    ensures var n := Working(t1, list[1..]);
            && Working(t, list) == n + 1
            && (forall t' :: Reflects(t1, t', list[1..][..n]) ==> Reflects(t, t', list[..n + 1]))
            && (n + 1 < |list| ==> Complaint(t1, list[1..][n]) == Complaint(t, list[n + 1]))
  {
    hide Reflects, Works, Complaint, SameShape, Target;
    var n := Working(t1, list[1..]);
    ShapeOf(t, t1, [list[0]]);
    SameWorking(t, t1, list[1..]);
    assert [list[0]] + list[1..][..n] == list[..n + 1];
    forall t' | Reflects(t1, t', list[1..][..n]) ensures Reflects(t, t', list[..n + 1]) {
      ReflectsThen(t, t1, t', list[0], list[1..][..n]);
    }
    if n + 1 < |list| { SameTarget(t, t1, list[1..][n]); }
  }

  lemma NothingStored(t: Table)
    ensures Reflects(t, t, [])
  {
  }

  lemma ShapeOf(t: Table, t': Table, list: seq<Assignment>)
    requires Reflects(t, t', list)
    ensures SameShape(t, t')
  {
  }

  /** What a program finds after parsing the printed form of any list of printable
      assignments. The parse returns true if every assignment works, and otherwise throws
      what is wrong with the first that does not. Either way `get` of every typed option
      gives the last value assigned to it before that, by long or short name and as its
      type reads it, or what it gave before. The option named "program" is the parser's
      own. */
  lemma ParseStoresTheLast(t: Table, program: string, list: seq<Assignment>)
    requires forall i :: 0 <= i < |list| ==> Printable(list[i])
    ensures var t0 := t.(options := t.options["program" := Plain]);
            var n := Working(t0, list); var (t', r) := Parse(t, [program] + PrintAll(list));
            && r == (if n == |list| then Returned(true) else Thrown(Complaint(t0, list[n])))
            && forall name :: name in t.options && name != "program" && t.options[name].Typed? ==>
                 Get(t', name) == (match LastValue(t0, list[..n], name)
                                   case Some(v) => (t.options[name].cast(v), None)
                                   case None => Get(t, name))
  {
    hide Finish, Scan, Complaint, Working, LastValue;
    ParseInvertsPrint(t, program, list);
    var t0 := t.(options := t.options["program" := Plain]);
    FinishStores(t0, list);
  }

  // ---- Exactly the printable ones ------------------------------------------------------

  lemma UnprintableLong(a: Assignment)
    requires (a.LongEq? || a.LongSpaced?) && !Printable(a)
    ensures Scan(Print(a), NO_FLAGS) != Scanned([Meaning(a)], true)
  {
    match a
    case LongEq(name, value) =>
      var s := "--" + name + "=" + value;
      var i :| 0 <= i < |name| && name[i] == '=';
      assert s[2 + i] == '=';
      var p := FindEq(s, 2);
      assert p <= 2 + i && |s[2..p]| < |name|;
      assert Scan(Print(a), NO_FLAGS).actions[0] == SetLong(s[2..p], s[p + 1..]);
    case LongSpaced(name, value) =>
      var s := "--" + name;
      if '=' in name {
        var i :| 0 <= i < |name| && name[i] == '=';
        assert s[2 + i] == '=';
        var p := FindEq(s, 2);
        assert p <= 2 + i && |s[2..p]| < |name|;
        assert Scan(Print(a), NO_FLAGS).actions[0] == SetLong(s[2..p], s[p + 1..]);
      } else {
        assert s[2..] == name;
        NoEqFound(s, 2);
        var f := NO_FLAGS.(isKey := true, name := name);
        assert Print(a)[1..] == [value];
        assert Scan(Print(a), NO_FLAGS) == Scan([value], f);
        LoneArgument(value, f);
      }
  }

  /** What a single dashed argument can assign is shorter than the argument itself. */
  lemma LoneArgument(a: string, f: Flags)
    requires Dashed(a)
    ensures forall x :: x in Scan([a], f).actions ==> |x.value| < |a|
  {
  }

  lemma UnprintableShort(a: Assignment)
    requires (a.ShortEq? || a.ShortSpaced?) && !Printable(a)
    ensures Scan(Print(a), NO_FLAGS) != Scanned([Meaning(a)], true)
  {
    match a
    case ShortEq(c, value) =>
      var s := "-" + [c] + "=" + value;
      assert Print(a)[1..] == [];
      if c == '-' {
        FindEqIs(s, 2, 2);
        assert Scan(Print(a), NO_FLAGS).actions[0].SetLong?;
      } else {
        FindEqIs(s, 1, 1);
        assert Scan(Print(a), NO_FLAGS).actions == [];
      }
    case ShortSpaced(c, value) =>
      var s := "-" + [c];
      if c == '-' {
        NoEqFound(s, 2);
        if Dashed(value) {
          assert Print(a)[1..] == [value];
          LoneArgument(value, NO_FLAGS.(isKey := true, name := s[2..]));
          assert Scan(Print(a), NO_FLAGS) == Scan([value], NO_FLAGS.(isKey := true, name := s[2..]));
        } else {
          assert Scan(Print(a), NO_FLAGS).actions[0].SetLong?;
        }
      } else {
        assert Print(a)[1..] == [value];
        LoneArgument(value, NO_FLAGS.(isKey := true, isSname := true, sname := c));
        assert Scan(Print(a), NO_FLAGS) == Scan([value], NO_FLAGS.(isKey := true, isSname := true, sname := c));
      }
  }

  /** The printer's condition is exact: an assignment is read back as itself if and only
      if it is printable. */
  lemma PrintableExactly(a: Assignment)
    ensures Scan(Print(a), NO_FLAGS) == Scanned([Meaning(a)], true) <==> Printable(a)
  {
    if Printable(a) {
      PrintedAreRead([a], NO_FLAGS);
      assert PrintAll([a]) == Print(a) && Meanings([a]) == [Meaning(a)];
    } else if a.LongEq? || a.LongSpaced? {
      UnprintableLong(a);
    } else {
      UnprintableShort(a);
    }
  }

  // ---- The flag that leaks -----------------------------------------------------------------

  /** What the arguments say when each is read by itself: a value belongs to the option
      just before it. */
  function Intended(args: seq<string>): Scanned
    decreases |args|
  {
    if args == [] then Scanned([], true)
    else
      var a := args[0];
      if LongAssigns(a) then
        var p := FindEq(a, 2);
        Prefixed([SetLong(a[2..p], a[p + 1..])], Intended(args[1..]))
      else if ShortAssigns(a) then
        Prefixed([SetShort(a[1], a[3..])], Intended(args[1..]))
      else if !Dashed(a) then Scanned([], false)
      else if |args| > 1 && !Dashed(args[1]) then
        var x := if DoubleDashed(a) then SetLong(a[2..], args[1]) else SetShort(ShortOf(a), args[1]);
        Prefixed([x], Intended(args[2..]))
      else Intended(args[1..])
  }

  /** A short option without a value is followed, before any short option with a detached
      value, by a long option with a detached value. `pending` says that such a short
      option came before. */
  predicate Leaks(args: seq<string>, pending: bool)
    decreases |args|
  {
    if args == [] then false
    else
      var a := args[0];
      if LongAssigns(a) || ShortAssigns(a) then Leaks(args[1..], pending)
      else if !Dashed(a) then false
      else if |args| > 1 && !Dashed(args[1]) then (DoubleDashed(a) && pending) || Leaks(args[2..], false)
      else Leaks(args[1..], pending || !DoubleDashed(a))
  }

  /** `is_sname` is not cleared by a short option that finds no value, so the next long
      option's detached value goes to the short option instead. The parser means what its
      arguments say exactly when that pattern does not occur. */
  lemma {:induction false} ParsesAsIntendedExactly(args: seq<string>, f: Flags)
    requires f.isKey && args != [] ==> Dashed(args[0])
    ensures Scan(args, f) == Intended(args) <==> !Leaks(args, f.isSname)
    decreases |args|
  {
    if args != [] {
      var a := args[0];
      if LongAssigns(a) {
        ParsesAsIntendedExactly(args[1..], f.(isKey := false, name := a[2..FindEq(a, 2)]));
        SamePrefix(SetLong(a[2..FindEq(a, 2)], a[FindEq(a, 2) + 1..]), SetLong(a[2..FindEq(a, 2)], a[FindEq(a, 2) + 1..]),
                   Scan(args[1..], f.(isKey := false, name := a[2..FindEq(a, 2)])), Intended(args[1..]));
      } else if ShortAssigns(a) {
        ParsesAsIntendedExactly(args[1..], f.(isKey := false, sname := a[1]));
        SamePrefix(SetShort(a[1], a[3..]), SetShort(a[1], a[3..]),
                   Scan(args[1..], f.(isKey := false, sname := a[1])), Intended(args[1..]));
      } else if Dashed(a) {
        DetachedAsIntended(args, f);
      }
    }
  }

  lemma {:induction false} DetachedAsIntended(args: seq<string>, f: Flags)
    requires args != [] && Dashed(args[0]) && !LongAssigns(args[0]) && !ShortAssigns(args[0])
    ensures Scan(args, f) == Intended(args) <==> !Leaks(args, f.isSname)
    decreases |args|, 0
  {
    var a := args[0];
    var f1 := Noted(a, f);
    if |args| > 1 && !Dashed(args[1]) {
      var f2 := f1.(isKey := false, isSname := false);
      ParsesAsIntendedExactly(args[2..], f2);
      var x := if f1.isSname then SetShort(f1.sname, args[1]) else SetLong(f1.name, args[1]);
      var y := if DoubleDashed(a) then SetLong(a[2..], args[1]) else SetShort(ShortOf(a), args[1]);
      assert Scan(args, f) == Prefixed([x], Scan(args[2..], f2));
      SamePrefix(x, y, Scan(args[2..], f2), Intended(args[2..]));
    } else {
      ParsesAsIntendedExactly(args[1..], f1);
    }
  }

  lemma SamePrefix(x: Action, y: Action, s: Scanned, t: Scanned)
    ensures Prefixed([x], s) == Prefixed([y], t) <==> x == y && s == t
  {
    var p, q := Prefixed([x], s), Prefixed([y], t);
    assert p.actions[0] == x && q.actions[0] == y;
    assert p.actions[1..] == s.actions && q.actions[1..] == t.actions;
  }

  /** The argument at `i` is a short option that finds no value. */
  predicate BareShort(args: seq<string>, i: nat)
    requires i < |args|
  {
    && Dashed(args[i]) && !DoubleDashed(args[i]) && !ShortAssigns(args[i])
    && (i + 1 == |args| || Dashed(args[i + 1]))
  }

  /** Giving every short option a value is enough. */
  lemma {:induction false} ValuedShortsAreSafe(args: seq<string>)
    requires forall i :: 0 <= i < |args| ==> !BareShort(args, i)
    ensures !Leaks(args, false)
    decreases |args|
  {
    if args != [] {
      assert !BareShort(args, 0);
      if |args| > 1 && !Dashed(args[1]) {
        forall i | 0 <= i < |args[2..]| ensures !BareShort(args[2..], i) { assert !BareShort(args, i + 2); }
        ValuedShortsAreSafe(args[2..]);
      }
      forall i | 0 <= i < |args[1..]| ensures !BareShort(args[1..], i) { assert !BareShort(args, i + 1); }
      ValuedShortsAreSafe(args[1..]);
    }
  }

  /** Reading with one thing to carry: the short option that found no value, replaced by
      the name of every later `-c=value`. It takes the next detached value, whatever
      option stands before it. */
  function Carried(args: seq<string>, waiting: Option<char>): Scanned
    decreases |args|
  {
    if args == [] then Scanned([], true)
    else
      var a := args[0];
      if LongAssigns(a) then
        var p := FindEq(a, 2);
        Prefixed([SetLong(a[2..p], a[p + 1..])], Carried(args[1..], waiting))
      else if ShortAssigns(a) then
        Prefixed([SetShort(a[1], a[3..])], Carried(args[1..], if waiting.Some? then Some(a[1]) else None))
      else if !Dashed(a) then Scanned([], false)
      else
        var w := if DoubleDashed(a) then waiting else Some(ShortOf(a));
        if |args| > 1 && !Dashed(args[1]) then
          Prefixed([if w.Some? then SetShort(w.value, args[1]) else SetLong(a[2..], args[1])], Carried(args[2..], None))
        else Carried(args[1..], w)
  }

  /** On every argument vector the four variables of the parser come to that: leak or no
      leak, this is where each value goes. */
  lemma {:induction false} ReadsAsCarried(args: seq<string>, f: Flags)
    requires f.isKey && args != [] ==> Dashed(args[0])
    ensures Scan(args, f) == Carried(args, if f.isSname then Some(f.sname) else None)
    decreases |args|
  {
    if args != [] {
      var a := args[0];
      if LongAssigns(a) {
        ReadsAsCarried(args[1..], f.(isKey := false, name := a[2..FindEq(a, 2)]));
      } else if ShortAssigns(a) {
        ReadsAsCarried(args[1..], f.(isKey := false, sname := a[1]));
      } else if Dashed(a) {
        var f1 := Noted(a, f);
        if |args| > 1 && !Dashed(args[1]) {
          ReadsAsCarried(args[2..], f1.(isKey := false, isSname := false));
        } else {
          ReadsAsCarried(args[1..], f1);
        }
      }
    }
  }

  /** The shortest leak: in `-a --name v` the value goes to `a`. */
  lemma LeakExample()
    ensures Scan(["-a", "--name", "v"], NO_FLAGS) == Scanned([SetShort('a', "v")], true)
    ensures Intended(["-a", "--name", "v"]) == Scanned([SetLong("name", "v")], true)
  {
    var args := ["-a", "--name", "v"];
    var a, b := args[0], args[1];
    NoEqFound(b, 2);
    assert args[1..] == ["--name", "v"] && args[1..][2..] == [];
    assert b[2..] == "name";
    var f1 := Noted(a, NO_FLAGS);
    assert Scan(args, NO_FLAGS) == Scan(args[1..], f1);
    assert Scan(args[1..], f1) == Prefixed([SetShort('a', "v")], Scan([], Noted(b, f1).(isKey := false, isSname := false)));
    assert Intended(args) == Intended(args[1..]) == Prefixed([SetLong("name", "v")], Intended([]));
  }
}

/** The parser as an object whose tables change while it reads. Option objects are only
    reachable through `options`, so they are kept in it by value. */
module CommandLineParsers {
  import opened Kernel
  import opened CommandLine

  class Parser {
    var options: map<string, Opt>
    var nameMap: map<char, string>
    const snameIsUnique: bool

    constructor (unique: bool)
      ensures View() == Table(map[], map[], unique) && Sound(View())
    {
      options, nameMap, snameIsUnique := map[], map[], unique;
    }

    ghost function View(): Table
      reads this
    {
      Table(options, nameMap, snameIsUnique)
    }

    method AddOption(name: string, sname: char, o: Opt) returns (error: Option<Error>)
      requires Sound(View()) && (o.Typed? ==> o.input.None?)
      modifies this
      ensures View() == Add(old(View()), name, sname, o).table && error == Add(old(View()), name, sname, o).error
      ensures Sound(View())
    {
      AddIsSound(View(), name, sname, o);
      if o.Typed? && o.default.Some? && !o.limiter(o.default.value) {
        return Some(DefaultRejected);
      }
      if name !in options {
        options := options[name := o];
      }
      if sname !in nameMap {
        nameMap := nameMap[sname := name];
      } else if !snameIsUnique {
        nameMap := nameMap[sname := name];
      } else {
        return Some(ShortTaken);
      }
      return None;
    }

    /** `get`, for the type the option was added with. */
    method GetValue(name: string) returns (value: Option<Value>, error: Option<Error>)
      ensures (value, error) == Get(View(), name)
    {
      if name !in options {
        return None, Some(NoSuchName);
      }
      match options[name] {
        case Plain => return None, Some(NullDereference);
        case Typed(_, _, default, input) =>
          if input.Some? {
            return input, None;
          } else if default.Some? {
            return default, None;
          }
          return None, Some(NoValue);
      }
    }

    method SetByName(name: string, value: string) returns (error: Option<Error>)
      modifies `options
      ensures View() == SetLongName(old(View()), name, value).table && error == SetLongName(old(View()), name, value).error
    {
      if name in options {
        var (o, e) := SetOpt(options[name], value);
        options := options[name := o];
        return e;
      }
      return Some(NoSuchName);
    }

    method SetByShort(sname: char, value: string) returns (error: Option<Error>)
      modifies `options
      ensures View() == SetShortName(old(View()), sname, value).table && error == SetShortName(old(View()), sname, value).error
    {
      if sname in nameMap {
        if nameMap[sname] !in options {
          return Some(NullDereference);
        }
        error := SetByName(nameMap[sname], value);
        return;
      }
      return Some(NoSuchShort);
    }

    /** One turn of `parse`'s loop at argument `i`: the flags and the index it leaves, or
        the result that ends the parse. */
    method Turn(argv: seq<string>, i: nat, f: Flags) returns (f': Flags, next: nat, result: Option<Parsed>)
      requires i < |argv|
      modifies `options
      ensures i < next <= |argv|
      ensures Finish(old(View()), Scan(argv[i..], f)) ==
              if result.Some? then (View(), result.value) else Finish(View(), Scan(argv[next..], f'))
    {
      hide Scan, Finish, SetLongName, SetShortName, Noted;
      var a := argv[i];
      assert argv[i..][0] == a && argv[i..][1..] == argv[i + 1..];
      ReadsOne(View(), argv[i..], f);
      NotedIs(a, f);
      f', next, result := f, i + 1, None;
      if DoubleDashed(a) {
        f' := f'.(isKey := true);
        var p := FindEq(a, 2);
        if p < |a| {
          f' := f.(isKey := false, name := a[2..p]);
          var e := SetByName(a[2..p], a[p + 1..]);
          return f', next, Failed(e);
        }
        f' := f'.(name := a[2..]);
      } else if Dashed(a) {
        f' := f'.(isKey := true);
        var p := FindEq(a, 1);
        if p < |a| && p == 2 {
          f' := f.(isKey := false, sname := a[1]);
          var e := SetByShort(a[1], a[3..]);
          return f', next, Failed(e);
        }
        f' := f'.(isSname := true, sname := ShortOf(a));
      }
      if !f'.isKey {
        return f', next, Some(Returned(false));
      }
      if i + 1 < |argv| && !Dashed(argv[i + 1]) {
        assert argv[i..][2..] == argv[i + 2..];
        var e;
        if f'.isSname {
          e := SetByShort(f'.sname, argv[i + 1]);
        } else {
          e := SetByName(f'.name, argv[i + 1]);
        }
        f' := f'.(isKey := false, isSname := false);
        return f', i + 2, Failed(e);
      }
    }

    /** `parse`: an index that may skip, and flags that live across arguments. */
    method Parse(argv: seq<string>) returns (r: Parsed)
      requires Sound(View())
      modifies `options
      ensures (View(), r) == CommandLine.Parse(old(View()), argv)
      ensures Sound(View())
    {
      ParseIsSound(View(), argv);
      hide Scan, Finish, Sound;
      ScanEnds();
      if |argv| < 1 {
        return Returned(false);
      }
      options := options["program" := Plain];
      ghost var goal := Finish(View(), Scan(argv[1..], NO_FLAGS));
      var f := NO_FLAGS;
      var i := 1;
      while i < |argv|
        invariant 1 <= i <= |argv|
        invariant Finish(View(), Scan(argv[i..], f)) == goal
      {
        var result;
        f, i, result := Turn(argv, i, f);
        if result.Some? {
          return result.value;
        }
      }
      assert argv[|argv|..] == [];
      return Returned(true);
    }
  }

  /** An exception ends the parse. */
  function Failed(e: Option<Error>): Option<Parsed> {
    if e.Some? then Some(Thrown(e.value)) else None
  }
}
