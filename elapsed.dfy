/** getPrettyElapsedTime: a number of seconds written as "1y 2w 3d 4h 5m 6s"
    over a chosen set of units.

    The seconds are peeled off unit by unit, largest first: each chosen unit
    takes the whole number of its size that fits in what is left, and the
    seconds field takes whatever remains. Fields are written in the fixed
    order y, w, d, h, m, s, zero fields are dropped unless "0" was among the
    unit specifiers, and the written fields are joined by single spaces. */
module ElapsedTime {
  import opened Text

  /** The six units, in output order. */
  const Order: string := "ywdhms"

  predicate IsUnit(u: char) {
    u == 'y' || u == 'w' || u == 'd' || u == 'h' || u == 'm' || u == 's'
  }

  /** How many seconds the unit at position k of Order holds (a year is
      365 days). */
  function UnitSize(k: nat): (n: nat)
    requires k < |Order|
    ensures n >= 1
  {
    if k == 0 then 365 * 24 * 60 * 60
    else if k == 1 then 7 * 24 * 60 * 60
    else if k == 2 then 24 * 60 * 60
    else if k == 3 then 60 * 60
    else if k == 4 then 60
    else 1
  }

  /** The position of a unit letter in Order. */
  function Position(u: char): (k: nat)
    requires IsUnit(u)
    ensures k < |Order| && Order[k] == u
  {
    if u == 'y' then 0
    else if u == 'w' then 1
    else if u == 'd' then 2
    else if u == 'h' then 3
    else if u == 'm' then 4
    else 5
  }

  /** Every unit is larger than every unit after it, and the units are
      distinct. */
  lemma UnitsShrink(i: nat, j: nat)
    requires i < j < |Order|
    ensures UnitSize(j) < UnitSize(i)
    ensures Order[i] != Order[j]
  {
  }

  /** Euclidean division facts for a positive divisor. */
  lemma DivMod(a: nat, p: nat)
    requires p >= 1
    ensures a % p < p && a % p <= a
    ensures (a / p) * p + a % p == a
    ensures (a / p) * p <= a
  {
  }

  /** `units.map(s => s.split("")).flat()`: the specifier strings cut into
      characters and laid end to end. */
  function Flatten(units: seq<string>): (cs: string)
    ensures forall c :: c in cs <==> exists i :: 0 <= i < |units| && c in units[i]
  {
    if units == [] then [] else units[0] + Flatten(units[1..])
  }

  /** `units.filter(el => el !== "0")`. */
  function WithoutZeros(cs: string): (r: string)
    ensures forall c :: c in r <==> c in cs && c != '0'
  {
    if cs == [] then []
    else (if cs[0] == '0' then [] else [cs[0]]) + WithoutZeros(cs[1..])
  }

  /** Whether "0" was among the unit specifiers: zero fields are then kept. */
  function KeepZero(units: seq<string>): bool
  {
    '0' in Flatten(units)
  }

  /** The unit letters asked for: every character but "0", or all six units
      when nothing but "0" was given. */
  function Selected(units: seq<string>): (sel: string)
    ensures (forall c :: c in Flatten(units) ==> c == '0') ==> sel == Order
    ensures (exists c :: c in Flatten(units) && c != '0') ==>
      forall u :: u in sel <==> u in Flatten(units) && u != '0'
  {
    var rest := WithoutZeros(Flatten(units));
    assert |rest| > 0 ==> rest[0] in rest;
    if |rest| == 0 then Order else rest
  }

  /** The fields for the units Order[k..], peeled from `rem` seconds: a
      chosen unit takes `rem / size` and leaves `rem % size` to the rest. */
  function Peel(rem: nat, k: nat, sel: string): map<char, nat>
    requires k <= |Order|
    decreases |Order| - k
  {
    if k == |Order| then map[]
    else
      var u := Order[k];
      if u in sel then Peel(rem % UnitSize(k), k + 1, sel)[u := rem / UnitSize(k)]
      else Peel(rem, k + 1, sel)
  }

  /** The peel gives a field to exactly the chosen units of Order[k..]. */
  lemma {:induction false} PeelKeys(rem: nat, k: nat, sel: string)
    requires k <= |Order|
    ensures forall u :: u in Peel(rem, k, sel) <==> u in Order[k..] && u in sel
    decreases |Order| - k
  {
    if k < |Order| {
      var p := UnitSize(k);
      if Order[k] in sel {
        PeelKeys(rem % p, k + 1, sel);
      } else {
        PeelKeys(rem, k + 1, sel);
      }
      assert Order[k..] == [Order[k]] + Order[k + 1..];
    }
  }

  /** The seconds no field accounts for: what is left after the last chosen
      unit. */
  function Rest(rem: nat, k: nat, sel: string): nat
    requires k <= |Order|
    decreases |Order| - k
  {
    if k == |Order| then rem
    else if Order[k] in sel then Rest(rem % UnitSize(k), k + 1, sel)
    else Rest(rem, k + 1, sel)
  }

  /** The seconds the fields for Order[k..] stand for. */
  function Total(f: map<char, nat>, k: nat): nat
    requires k <= |Order|
    decreases |Order| - k
  {
    if k == |Order| then 0
    else (if Order[k] in f then f[Order[k]] * UnitSize(k) else 0) + Total(f, k + 1)
  }

  /** The total over Order[k..] does not look at keys outside those units. */
  lemma {:induction false} TotalIgnores(f: map<char, nat>, k: nat, u: char, v: nat)
    requires k <= |Order|
    requires forall j :: k <= j < |Order| ==> Order[j] != u
    ensures Total(f[u := v], k) == Total(f, k)
    decreases |Order| - k
  {
    if k < |Order| {
      TotalIgnores(f, k + 1, u, v);
    }
  }

  /** No unit comes back later in Order. */
  lemma LaterUnitsDiffer(k: nat)
    requires k < |Order|
    ensures forall j :: k + 1 <= j < |Order| ==> Order[j] != Order[k]
  {
    forall j | k + 1 <= j < |Order| ensures Order[j] != Order[k] {
      UnitsShrink(k, j);
    }
  }

  /** A chosen unit's field stands for the whole units it took. */
  lemma TakenUnitTotal(rem: nat, k: nat, sel: string)
    requires k < |Order| && Order[k] in sel
    ensures Total(Peel(rem, k, sel), k) ==
      (rem / UnitSize(k)) * UnitSize(k) + Total(Peel(rem % UnitSize(k), k + 1, sel), k + 1)
    ensures Rest(rem, k, sel) == Rest(rem % UnitSize(k), k + 1, sel)
  {
    var later := Peel(rem % UnitSize(k), k + 1, sel);
    LaterUnitsDiffer(k);
    TotalIgnores(later, k + 1, Order[k], rem / UnitSize(k));
  }

  /** Conservation: the fields and the dropped rest add up to the input. */
  lemma {:induction false} PeelConserves(rem: nat, k: nat, sel: string)
    requires k <= |Order|
    ensures Total(Peel(rem, k, sel), k) + Rest(rem, k, sel) == rem
    decreases |Order| - k
  {
    if k < |Order| {
      var u := Order[k];
      var p := UnitSize(k);
      if u in sel {
        PeelConserves(rem % p, k + 1, sel);
        TakenUnitTotal(rem, k, sel);
        DivMod(rem, p);
      } else {
        PeelConserves(rem, k + 1, sel);
        PeelKeys(rem, k + 1, sel);
      }
    }
  }

  /** What is dropped is less than every chosen unit, so nothing at all is
      dropped once seconds are chosen. */
  lemma {:induction false} RestBelowChosenUnit(rem: nat, k: nat, sel: string, i: nat)
    requires k <= i < |Order| && Order[i] in sel
    ensures Rest(rem, k, sel) < UnitSize(i)
    decreases |Order| - k
  {
    var u := Order[k];
    DivMod(rem, UnitSize(k));
    if k == i {
      RestAtMost(rem % UnitSize(k), k + 1, sel);
    } else if u in sel {
      RestBelowChosenUnit(rem % UnitSize(k), k + 1, sel, i);
    } else {
      RestBelowChosenUnit(rem, k + 1, sel, i);
    }
  }

  lemma NothingDroppedWithSeconds(rem: nat, sel: string)
    requires 's' in sel
    ensures Rest(rem, 0, sel) == 0
  {
    assert Order[5] == 's';
    RestBelowChosenUnit(rem, 0, sel, 5);
  }

  lemma {:induction false} RestAtMost(rem: nat, k: nat, sel: string)
    requires k <= |Order|
    ensures Rest(rem, k, sel) <= rem
    decreases |Order| - k
  {
    if k < |Order| {
      if Order[k] in sel {
        DivMod(rem, UnitSize(k));
        RestAtMost(rem % UnitSize(k), k + 1, sel);
      } else {
        RestAtMost(rem, k + 1, sel);
      }
    }
  }

  /** A chosen unit's field never stands for more seconds than there are. */
  lemma {:induction false} FieldAtMost(rem: nat, k: nat, sel: string, j: nat)
    requires k <= j < |Order| && Order[j] in sel
    ensures Order[j] in Peel(rem, k, sel)
    ensures Peel(rem, k, sel)[Order[j]] * UnitSize(j) <= rem
    decreases |Order| - k
  {
    var u := Order[k];
    DivMod(rem, UnitSize(k));
    if k < j {
      UnitsShrink(k, j);
      if u in sel {
        FieldAtMost(rem % UnitSize(k), k + 1, sel, j);
      } else {
        FieldAtMost(rem, k + 1, sel, j);
      }
    }
  }

  /** Below a chosen unit, a field stands for less than one of that unit:
      with minutes chosen the seconds are under 60, with hours chosen the
      minutes are under 60, and so on for every pair of chosen units. */
  lemma {:induction false} FieldBelowLargerUnit(rem: nat, k: nat, sel: string, i: nat, j: nat)
    requires k <= i < j < |Order| && Order[i] in sel && Order[j] in sel
    ensures Order[j] in Peel(rem, k, sel)
    ensures Peel(rem, k, sel)[Order[j]] * UnitSize(j) < UnitSize(i)
    decreases |Order| - k
  {
    var u := Order[k];
    UnitsShrink(k, j);
    DivMod(rem, UnitSize(k));
    if k == i {
      FieldAtMost(rem % UnitSize(k), k + 1, sel, j);
    } else if u in sel {
      FieldBelowLargerUnit(rem % UnitSize(k), k + 1, sel, i, j);
    } else {
      FieldBelowLargerUnit(rem, k + 1, sel, i, j);
    }
  }

  /** Every letter of Order is a unit, found back at its own position. */
  lemma PositionOfOrder(j: nat)
    requires j < |Order|
    ensures IsUnit(Order[j]) && Position(Order[j]) == j
  {
  }

  /** A position in Order. */
  type UnitIndex = i: nat | i < 6

  /** One written field: an amount, and the position of its unit in Order. */
  datatype Field = Field(amount: nat, pos: UnitIndex)

  /** The text of a field, as the template `${fields[i]}${i}` writes it. */
  function FieldText(x: Field): string
  {
    Decimal(x.amount) + [Order[x.pos]]
  }

  /** Whether the field of `u` is written out. */
  predicate Shown(f: map<char, nat>, keepZero: bool, u: char)
  {
    u in f && (keepZero || f[u] != 0)
  }

  /** Each field names a unit later in Order than the field before it. */
  predicate Ascending(xs: seq<Field>)
  {
    |xs| <= 1 || (xs[0].pos < xs[1].pos && Ascending(xs[1..]))
  }

  /** In an ascending list, every earlier field comes before every later
      one, so no unit is named twice. */
  lemma {:induction false} AscendingInOrder(xs: seq<Field>, i: nat, j: nat)
    requires Ascending(xs) && i < j < |xs|
    ensures xs[i].pos < xs[j].pos
  {
    if i == 0 {
      if j > 1 {
        AscendingInOrder(xs[1..], 0, j - 1);
      }
    } else {
      AscendingInOrder(xs[1..], i - 1, j - 1);
    }
  }

  /** The fields written for the units Order[k..]: one per shown unit, in
      the order y, w, d, h, m, s. */
  function ShownFields(f: map<char, nat>, keepZero: bool, k: nat): (r: seq<Field>)
    requires k <= |Order|
    ensures Ascending(r)
    ensures r == [] || k <= r[0].pos
    decreases |Order| - k
  {
    if k == |Order| then []
    else if Shown(f, keepZero, Order[k]) then [Field(f[Order[k]], k)] + ShownFields(f, keepZero, k + 1)
    else ShownFields(f, keepZero, k + 1)
  }

  /** Each written field is a shown field with its own amount, for a unit
      from Order[k..]. */
  lemma {:induction false} ShownFieldsShape(f: map<char, nat>, keepZero: bool, k: nat, i: nat)
    requires k <= |Order| && i < |ShownFields(f, keepZero, k)|
    ensures var x := ShownFields(f, keepZero, k)[i];
      && k <= x.pos
      && Shown(f, keepZero, Order[x.pos])
      && x.amount == f[Order[x.pos]]
    decreases |Order| - k
  {
    var r := ShownFields(f, keepZero, k);
    var rest := ShownFields(f, keepZero, k + 1);
    if Shown(f, keepZero, Order[k]) {
      if i > 0 {
        assert r[i] == rest[i - 1];
        ShownFieldsShape(f, keepZero, k + 1, i - 1);
      }
    } else {
      ShownFieldsShape(f, keepZero, k + 1, i);
    }
  }

  /** Every shown field is written. */
  lemma {:induction false} ShownFieldsComplete(f: map<char, nat>, keepZero: bool, k: nat, n: nat)
    requires k <= n < |Order| && Shown(f, keepZero, Order[n])
    ensures exists i :: 0 <= i < |ShownFields(f, keepZero, k)| && ShownFields(f, keepZero, k)[i].pos == n
    decreases |Order| - k
  {
    var u := Order[k];
    var r := ShownFields(f, keepZero, k);
    var rest := ShownFields(f, keepZero, k + 1);
    if n == k {
      assert r == [Field(f[u], k)] + rest;
      assert r[0].pos == n;
    } else {
      ShownFieldsComplete(f, keepZero, k + 1, n);
      var i :| 0 <= i < |rest| && rest[i].pos == n;
      if Shown(f, keepZero, u) {
        assert r == [Field(f[u], k)] + rest;
        assert r[i + 1] == rest[i];
      } else {
        assert r == rest;
      }
    }
  }

  /** The seconds a list of fields stands for. */
  function FieldsTotal(xs: seq<Field>): nat
  {
    if xs == [] then 0
    else
      var x := xs[0];
      x.amount * UnitSize(x.pos) + FieldsTotal(xs[1..])
  }

  /** Dropping the zero fields loses no seconds. */
  lemma {:induction false} ShownFieldsTotal(f: map<char, nat>, keepZero: bool, k: nat)
    requires k <= |Order|
    ensures FieldsTotal(ShownFields(f, keepZero, k)) == Total(f, k)
    decreases |Order| - k
  {
    if k < |Order| {
      ShownFieldsTotal(f, keepZero, k + 1);
      var u := Order[k];
      var rest := ShownFields(f, keepZero, k + 1);
      var here := if u in f then f[u] * UnitSize(k) else 0;
      assert Total(f, k) == here + Total(f, k + 1);
      if Shown(f, keepZero, u) {
        var x := Field(f[u], k);
        assert ShownFields(f, keepZero, k) == [x] + rest;
        assert ([x] + rest)[1..] == rest;
      } else {
        assert ShownFields(f, keepZero, k) == rest;
        assert here == 0;
      }
    }
  }

  /** The texts of the fields, in order: what the loop pushes onto `out`. */
  function Render(xs: seq<Field>): (r: seq<string>)
    ensures |r| == |xs|
    ensures forall i :: 0 <= i < |xs| ==> r[i] == FieldText(xs[i])
  {
    if xs == [] then [] else [FieldText(xs[0])] + Render(xs[1..])
  }

  /** The last character of a non-empty string. */
  function Last(p: string): char
    requires |p| >= 1
  {
    p[|p| - 1]
  }

  /** The seconds one written field stands for; anything that is not a
      number followed by a unit letter stands for none. */
  function PartValue(p: string): nat
  {
    if |p| >= 1 && IsUnit(Last(p)) && forall i :: 0 <= i < |p| - 1 ==> IsDigit(p[i])
    then ParseDecimal(p[..|p| - 1]) * UnitSize(Position(Last(p)))
    else 0
  }

  /** The seconds a list of written fields stands for, read from the text. */
  function Recombine(parts: seq<string>): nat
  {
    if parts == [] then 0 else PartValue(parts[0]) + Recombine(parts[1..])
  }

  /** One written field reads back as the seconds it stands for. */
  lemma PartValueOfField(x: Field)
    ensures PartValue(FieldText(x)) == x.amount * UnitSize(x.pos)
  {
    var p := FieldText(x);
    assert p[..|p| - 1] == Decimal(x.amount);
    assert Last(p) == Order[x.pos];
    PositionOfOrder(x.pos);
    ParseDecimalOfDecimal(x.amount);
  }

  /** Reading the texts back gives the seconds the fields stand for. */
  lemma {:induction false} RecombineRender(xs: seq<Field>)
    ensures Recombine(Render(xs)) == FieldsTotal(xs)
  {
    if xs != [] {
      PartValueOfField(xs[0]);
      RecombineRender(xs[1..]);
      assert Render(xs)[1..] == Render(xs[1..]);
    }
  }

  /** No written field holds a space. */
  lemma FieldTextHasNoSpace(x: Field)
    ensures ' ' !in FieldText(x)
  {
    var d := Decimal(x.amount);
    assert FieldText(x) == d + [Order[x.pos]];
    assert forall j :: 0 <= j < |d| ==> d[j] != ' ';
  }

  /** Written fields joined by spaces split back apart at the spaces. */
  lemma RenderSplits(xs: seq<Field>)
    requires xs != []
    ensures Split(Join(Render(xs), ' '), ' ') == Render(xs)
  {
    var parts := Render(xs);
    forall i | 0 <= i < |parts| ensures ' ' !in parts[i] {
      FieldTextHasNoSpace(xs[i]);
    }
    SplitJoin(parts, ' ');
  }

  /** Read back from their text, the written fields stand for the input
      less the seconds the peel dropped. */
  lemma RenderedTotal(secs: nat, sel: string, keepZero: bool)
    ensures Recombine(Render(ShownFields(Peel(secs, 0, sel), keepZero, 0))) + Rest(secs, 0, sel) == secs
  {
    RecombineRender(ShownFields(Peel(secs, 0, sel), keepZero, 0));
    ShownFieldsTotal(Peel(secs, 0, sel), keepZero, 0);
    PeelConserves(secs, 0, sel);
  }

  /** What the written fields lose is below every chosen unit. */
  lemma RenderedLoss(secs: nat, sel: string, keepZero: bool)
    ensures Recombine(Render(ShownFields(Peel(secs, 0, sel), keepZero, 0))) <= secs
    ensures forall i :: 0 <= i < |Order| && Order[i] in sel ==>
      secs - Recombine(Render(ShownFields(Peel(secs, 0, sel), keepZero, 0))) < UnitSize(i)
    ensures 's' in sel ==> Recombine(Render(ShownFields(Peel(secs, 0, sel), keepZero, 0))) == secs
  {
    RenderedTotal(secs, sel, keepZero);
    if 's' in sel {
      NothingDroppedWithSeconds(secs, sel);
    }
    forall i | 0 <= i < |Order| && Order[i] in sel
      ensures Rest(secs, 0, sel) < UnitSize(i)
    {
      RestBelowChosenUnit(secs, 0, sel, i);
    }
  }

  /** The fields getPrettyElapsedTime computes. */
  function Fields(secs: nat, units: seq<string>): map<char, nat>
  {
    Peel(secs, 0, Selected(units))
  }

  /** The fields it writes, before they are joined. */
  function PrettyParts(secs: nat, units: seq<string>): seq<string>
  {
    Render(ShownFields(Fields(secs, units), KeepZero(units), 0))
  }

  /** The text getPrettyElapsedTime returns. */
  function Pretty(secs: nat, units: seq<string>): string
  {
    Join(PrettyParts(secs, units), ' ')
  }

  /** With no field written the text is empty; otherwise it splits at its
      spaces into the written fields. */
  lemma PrettySplits(secs: nat, units: seq<string>)
    ensures PrettyParts(secs, units) == [] ==> Pretty(secs, units) == ""
    ensures PrettyParts(secs, units) != [] ==> Split(Pretty(secs, units), ' ') == PrettyParts(secs, units)
  {
    var xs := ShownFields(Fields(secs, units), KeepZero(units), 0);
    if xs != [] {
      RenderSplits(xs);
    }
  }

  /** The written fields add back up to the input with less than one of
      every chosen unit dropped, and nothing dropped when seconds are
      chosen. */
  lemma PrettyAddsUp(secs: nat, units: seq<string>)
    ensures Recombine(PrettyParts(secs, units)) <= secs
    ensures forall i :: 0 <= i < |Order| && Order[i] in Selected(units) ==>
      secs - Recombine(PrettyParts(secs, units)) < UnitSize(i)
    ensures 's' in Selected(units) ==> Recombine(PrettyParts(secs, units)) == secs
  {
    RenderedLoss(secs, Selected(units), KeepZero(units));
  }

  /** Given nothing but "0" (or nothing at all), every one of the six
      units gets a field. */
  lemma DefaultsToAllUnits(secs: nat, units: seq<string>)
    requires forall c :: c in Flatten(units) ==> c == '0'
    ensures forall u :: u in Fields(secs, units) <==> IsUnit(u)
  {
    PeelKeys(secs, 0, Selected(units));
  }

  /** The peel as getPrettyElapsedTime runs it: the fields already set sit
      in `done`, and each chosen unit of Order[k..] adds its own. */
  function PeelInto(rem: nat, k: nat, sel: string, done: map<char, nat>): map<char, nat>
    requires k <= |Order|
    decreases |Order| - k
  {
    if k == |Order| then done
    else
      var u := Order[k];
      if u in sel then PeelInto(rem % UnitSize(k), k + 1, sel, done[u := rem / UnitSize(k)])
      else PeelInto(rem, k + 1, sel, done)
  }

  /** Adding the field of unit k does not add any later unit. */
  lemma LaterUnitsStayOut(k: nat, done: map<char, nat>, v: nat)
    requires k < |Order|
    requires forall j :: k <= j < |Order| ==> Order[j] !in done
    ensures forall j :: k + 1 <= j < |Order| ==> Order[j] !in done[Order[k] := v]
  {
    forall j | k + 1 <= j < |Order| ensures Order[j] !in done[Order[k] := v] {
      UnitsShrink(k, j);
    }
  }

  /** Setting a key the right-hand map lacks commutes with the union. */
  lemma UnionUpdate(m: map<char, nat>, done: map<char, nat>, u: char, v: nat)
    requires u !in done
    ensures m + done[u := v] == m[u := v] + done
  {
  }

  /** Running the peel into fields that name none of the units still to
      come adds exactly the peeled fields. */
  lemma {:induction false} PeelIntoIsPeel(rem: nat, k: nat, sel: string, done: map<char, nat>)
    requires k <= |Order|
    requires forall j :: k <= j < |Order| ==> Order[j] !in done
    ensures PeelInto(rem, k, sel, done) == Peel(rem, k, sel) + done
    decreases |Order| - k
  {
    if k == |Order| {
      assert Peel(rem, k, sel) + done == done;
    } else {
      var u := Order[k];
      var p := UnitSize(k);
      if u in sel {
        LaterUnitsStayOut(k, done, rem / p);
        PeelIntoIsPeel(rem % p, k + 1, sel, done[u := rem / p]);
        UnionUpdate(Peel(rem % p, k + 1, sel), done, u, rem / p);
      } else {
        PeelIntoIsPeel(rem, k + 1, sel, done);
      }
    }
  }

  /** Started from no fields, the peel as run gives the peeled fields. */
  lemma PeelFromNothing(secs: nat, sel: string)
    ensures PeelInto(secs, 0, sel, map[]) == Peel(secs, 0, sel)
  {
    PeelIntoIsPeel(secs, 0, sel, map[]);
    assert Peel(secs, 0, sel) + map[] == Peel(secs, 0, sel);
  }

  /** The last step of the peel: the seconds field, when chosen, takes
      everything that is left. */
  lemma SecondsTakeTheRest(rem: nat, sel: string, done: map<char, nat>)
    ensures PeelInto(rem, 5, sel, done) == if 's' in sel then done['s' := rem] else done
  {
    assert Order[5] == 's' && UnitSize(5) == 1;
  }

  /** One of the first five if-blocks of getPrettyElapsedTime: when the
      unit at position k is chosen, its field takes the whole number of
      `size` that fits in `rem`, and that many units are taken off `rem`. */
  method TakeUnit(selected: string, k: nat, size: nat, fields: map<char, nat>, rem: nat)
    returns (fields': map<char, nat>, rem': nat)
    requires k < |Order| && size == UnitSize(k)
    ensures PeelInto(rem', k + 1, selected, fields') == PeelInto(rem, k, selected, fields)
  {
    fields', rem' := fields, rem;
    var u := Order[k];
    if u in selected {
      DivMod(rem, size);
      fields' := fields'[u := rem / size];
      rem' := rem - fields'[u] * size;
    }
  }

  /** The six if-blocks of getPrettyElapsedTime: largest unit first, each
      chosen unit takes the whole number of its size that fits and leaves
      the remainder to the next; the seconds field takes what is left. */
  method PeelFields(elapsedSeconds: nat, selected: string) returns (fields: map<char, nat>)
    ensures fields == Peel(elapsedSeconds, 0, selected)
  {
    var rem := elapsedSeconds;
    fields := map[];
    var secPerYear := 365 * 24 * 60 * 60;
    fields, rem := TakeUnit(selected, 0, secPerYear, fields, rem);
    var secPerWeek := 7 * 24 * 60 * 60;
    fields, rem := TakeUnit(selected, 1, secPerWeek, fields, rem);
    var secPerDay := 24 * 60 * 60;
    fields, rem := TakeUnit(selected, 2, secPerDay, fields, rem);
    var secPerHour := 60 * 60;
    fields, rem := TakeUnit(selected, 3, secPerHour, fields, rem);
    var secPerMin := 60;
    fields, rem := TakeUnit(selected, 4, secPerMin, fields, rem);
    ghost var last := fields;
    SecondsTakeTheRest(rem, selected, last);
    if 's' in selected {
      fields := fields['s' := rem];
    }
    assert fields == PeelInto(rem, 5, selected, last);
    PeelFromNothing(elapsedSeconds, selected);
  }

  /** Unfolding the written fields of Order[k..] by one unit. */
  lemma RenderShownStep(f: map<char, nat>, keepZero: bool, k: nat)
    requires k < |Order|
    ensures Render(ShownFields(f, keepZero, k)) ==
      (if Shown(f, keepZero, Order[k]) then [FieldText(Field(f[Order[k]], k))] else []) +
      Render(ShownFields(f, keepZero, k + 1))
  {
    var rest := ShownFields(f, keepZero, k + 1);
    if Shown(f, keepZero, Order[k]) {
      var x := Field(f[Order[k]], k);
      assert ([x] + rest)[1..] == rest;
    }
  }

  lemma AppendAssociates(a: seq<string>, b: seq<string>, c: seq<string>)
    ensures (a + b) + c == a + (b + c)
  {
  }

  /** The for-of loop of getPrettyElapsedTime: the fields in the order
      y, w, d, h, m, s, zero ones skipped unless they are kept. */
  method WriteFields(fields: map<char, nat>, keepZero: bool) returns (out: seq<string>)
    ensures out == Render(ShownFields(fields, keepZero, 0))
  {
    out := [];
    for i := 0 to |Order|
      invariant out + Render(ShownFields(fields, keepZero, i)) == Render(ShownFields(fields, keepZero, 0))
    {
      RenderShownStep(fields, keepZero, i);
      var u := Order[i];
      if u in fields {
        if !keepZero && fields[u] == 0 {
          continue;
        }
        var t := Decimal(fields[u]) + [u];
        assert t == FieldText(Field(fields[u], i));
        AppendAssociates(out, [t], Render(ShownFields(fields, keepZero, i + 1)));
        out := out + [t];
      }
    }
    assert out + [] == out;
  }

  /** getPrettyElapsedTime(elapsedSeconds, ...units). */
  method PrettyElapsedTime(elapsedSeconds: nat, units: seq<string>) returns (r: string)
    ensures r == Pretty(elapsedSeconds, units)
  {
    var flat := Flatten(units);
    var keepZero := '0' in flat;
    var selected := WithoutZeros(flat);
    if |selected| == 0 {
      selected := Order;
    }
    assert selected == Selected(units);
    var fields := PeelFields(elapsedSeconds, selected);
    var out := WriteFields(fields, keepZero);
    r := Join(out, ' ');
  }
}
