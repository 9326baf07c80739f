/** Worked examples of the composition-pattern compiler, each evaluated
    through the scanner, the sort and the assembly of the query. */
module CompositionExamples {
  import opened Composition

  /** Without a '*', the result is fixed by the items of the sorted pairs. */
  lemma PlainResult(c: string, items: seq<string>)
    requires c != "%" && '*' !in c
    requires ElementItems(SortByElement(FindAll(c))) == items
    ensures Compiled(c) == (Join(" ", items), |items|)
  {
    PlainPattern(c);
  }

  lemma ScanAl2Cu1()
    ensures FindAll("Al2Cu1") == [Pair("Al", "2"), Pair("Cu", "1")]
  {
    var s := "Al2Cu1";
    assert IsLower(s[1]) && s[2] != '-' && IsQuantity(s[2]);
    assert s[..2] == "Al" && s[2..3] == "2";
    assert ElementMatch(s) == (Pair("Al", "2"), 3);
    assert s[3..] == "Cu1";
    assert "Cu1"[..2] == "Cu" && "Cu1"[2..3] == "1";
    assert ElementMatch("Cu1") == (Pair("Cu", "1"), 3);
    assert "Cu1"[3..] == "";
  }

  lemma ScanCu1Al2()
    ensures FindAll("Cu1Al2") == [Pair("Cu", "1"), Pair("Al", "2")]
  {
    var s := "Cu1Al2";
    assert s[..2] == "Cu" && s[2..3] == "1";
    assert ElementMatch(s) == (Pair("Cu", "1"), 3);
    assert s[3..] == "Al2";
    assert "Al2"[..2] == "Al" && "Al2"[2..3] == "2";
    assert ElementMatch("Al2") == (Pair("Al", "2"), 3);
    assert "Al2"[3..] == "";
  }

  lemma AlCuItems()
    ensures ElementItems([Pair("Al", "2"), Pair("Cu", "1")]) == ["Al-2", "Cu-1"]
    ensures Join(" ", ["Al-2", "Cu-1"]) == "Al-2 Cu-1"
  {
    var ps := [Pair("Al", "2"), Pair("Cu", "1")];
    assert ItemText(ps[0]) == "Al-2";
    assert ItemText(ps[1]) == "Cu-1";
    assert ps[1..][1..] == [];
    JoinPair(" ", "Al-2", "Cu-1");
    assert "Al-2" + " " + "Cu-1" == "Al-2 Cu-1";
  }

  lemma SortAlCu()
    ensures SortByElement([Pair("Al", "2"), Pair("Cu", "1")]) == [Pair("Al", "2"), Pair("Cu", "1")]
    ensures SortByElement([Pair("Cu", "1"), Pair("Al", "2")]) == [Pair("Al", "2"), Pair("Cu", "1")]
  {
    assert KeyLe("Al", "Cu") && !KeyLe("Cu", "Al");
    assert [Pair("Cu", "1"), Pair("Al", "2")][1..] == [Pair("Al", "2")];
  }

  lemma Al2Cu1Items()
    ensures ElementItems(SortByElement(FindAll("Al2Cu1"))) == ["Al-2", "Cu-1"]
    ensures ElementItems(SortByElement(FindAll("Cu1Al2"))) == ["Al-2", "Cu-1"]
  {
    ScanAl2Cu1();
    ScanCu1Al2();
    SortAlCu();
    AlCuItems();
  }

  lemma PlainAlCu()
    ensures "Al2Cu1" != "%" && '*' !in "Al2Cu1"
    ensures "Cu1Al2" != "%" && '*' !in "Cu1Al2"
  {
    assert "Al2Cu1" == ['A', 'l', '2', 'C', 'u', '1'];
    assert "Cu1Al2" == ['C', 'u', '1', 'A', 'l', '2'];
  }

  lemma CompiledAl2Cu1()
    ensures Compiled("Al2Cu1") == ("Al-2 Cu-1", 2)
  {
    Al2Cu1Items();
    AlCuItems();
    PlainAlCu();
    PlainResult("Al2Cu1", ["Al-2", "Cu-1"]);
  }

  lemma CompiledCu1Al2()
    ensures Compiled("Cu1Al2") == ("Al-2 Cu-1", 2)
  {
    Al2Cu1Items();
    AlCuItems();
    PlainAlCu();
    PlainResult("Cu1Al2", ["Al-2", "Cu-1"]);
  }

  /** The order of the elements in the pattern does not matter. */
  lemma ExampleAlCu()
    ensures Compiled("Al2Cu1") == ("Al-2 Cu-1", 2)
    ensures Compiled("Cu1Al2") == ("Al-2 Cu-1", 2)
  {
    CompiledAl2Cu1();
    CompiledCu1Al2();
  }

  /** A '%' quantity is kept, and '-' before it is consumed. */
  lemma ExampleSiPercent()
    ensures Compiled("Si-%") == ("Si-%", 1)
  {
    var s := "Si-%";
    assert s[..2] == "Si" && s[3..4] == "%";
    assert ElementMatch(s) == (Pair("Si", "%"), 4);
    assert s[4..] == "";
    assert FindAll(s) == [Pair("Si", "%")];
    assert ItemText(Pair("Si", "%")) == "Si-%";
    assert ElementItems([Pair("Si", "%")]) == ["Si-%"];
    PlainResult(s, ["Si-%"]);
  }

  /** Only one quantity character is taken: the '2' of "Al12" is skipped. */
  lemma ExampleOneDigitQuantity()
    ensures Compiled("Al12") == ("Al-1", 1)
  {
    var s := "Al12";
    assert s[..2] == "Al" && s[2..3] == "1";
    assert ElementMatch(s) == (Pair("Al", "1"), 3);
    assert s[3..] == "2" && FindAll("2") == [];
    assert FindAll(s) == [Pair("Al", "1")];
    assert ItemText(Pair("Al", "1")) == "Al-1";
    assert ElementItems([Pair("Al", "1")]) == ["Al-1"];
    PlainResult(s, ["Al-1"]);
  }

  lemma ScanAlAl()
    ensures FindAll("AlAl") == [Pair("Al", ""), Pair("Al", "")]
  {
    var s := "AlAl";
    assert s[..2] == "Al" && s[2] != '-' && !IsQuantity(s[2]);
    assert ElementMatch(s) == (Pair("Al", ""), 2);
    assert s[2..] == "Al";
    assert "Al"[..2] == "Al";
    assert ElementMatch("Al") == (Pair("Al", ""), 2);
    assert "Al"[2..] == "";
  }

  lemma AlAlItems()
    ensures ElementItems(SortByElement(FindAll("AlAl"))) == ["Al-1", "Al-1"]
    ensures Join(" ", ["Al-1", "Al-1"]) == "Al-1 Al-1"
    ensures "AlAl" != "%" && '*' !in "AlAl"
  {
    var ps := [Pair("Al", ""), Pair("Al", "")];
    ScanAlAl();
    KeyLeReflexive("Al");
    assert SortByElement(ps) == ps;
    assert ItemText(ps[0]) == "Al-1";
    assert ps[1..][1..] == [];
    JoinPair(" ", "Al-1", "Al-1");
    assert "Al-1" + " " + "Al-1" == "Al-1 Al-1";
    assert "AlAl" == ['A', 'l', 'A', 'l'];
  }

  /** A repeated element is counted once per occurrence. */
  lemma ExampleRepeatedElement()
    ensures Compiled("AlAl") == ("Al-1 Al-1", 2)
  {
    AlAlItems();
    PlainResult("AlAl", ["Al-1", "Al-1"]);
  }

  lemma ScanStarCu()
    ensures FindAll("*Cu") == [Pair("", ""), Pair("Cu", "")]
  {
    var s := "*Cu";
    assert s[1..] == "Cu";
    assert "Cu"[..2] == "Cu";
    assert ElementMatch("Cu") == (Pair("Cu", ""), 2);
    assert "Cu"[2..] == "";
  }

  lemma StarCuQuery()
    ensures var ps := SortByElement(FindAll("*Cu"));
      HasWildcard(ps) && "%" + Join("%", ElementItems(ps)) + "%" == "%Cu-1%"
  {
    var ps := [Pair("", ""), Pair("Cu", "")];
    ScanStarCu();
    assert SortByElement(ps) == ps;
    assert ItemText(ps[1]) == "Cu-1";
    assert ElementItems(ps) == ["Cu-1"];
    assert HasWildcard(ps) by { assert ps[0].el == ""; }
  }

  lemma StarCuSingle()
    ensures NoDoublePercent("%Cu-1%")
  {
    var s := "%Cu-1%";
    assert s == ['%', 'C', 'u', '-', '1', '%'];
    assert forall i | 1 <= i < |s| - 1 :: s[i] != '%';
  }

  /** A wildcard comes first after sorting and wraps the query in '%'. */
  lemma ExampleWildcard()
    ensures Compiled("*Cu") == ("%Cu-1%", -1)
    ensures Compiled("%") == ("%", -1)
  {
    StarCuQuery();
    StarCuSingle();
    CollapseWithoutDouble("%Cu-1%");
  }
}
