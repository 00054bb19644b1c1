/** The lunch formatter: from today's menu items to one spoken sentence
    (`formatTodayLunches` and the `Categories` labels). */
module Lunches {
  import opened Locale

  /** The category labels the menu feed uses. Only main dishes are spoken. */
  const MainDish: string := "Hauptgericht"
  const SideDish: string := "Beilagen"
  const Dessert: string := "Nachspeise"

  /** One entry of the menu feed. The price is spoken exactly as the feed gives it. */
  datatype MenuItem = MenuItem(name: string, category: string, priceStudent: string)

  predicate IsMainDish(item: MenuItem)
  {
    item.category == MainDish
  }

  /** The main dishes of a menu, in menu order. */
  function MainDishes(items: seq<MenuItem>): (r: seq<MenuItem>)
    ensures |r| <= |items|
  {
    if items == [] then []
    else
      var n := |items| - 1;
      MainDishes(items[..n]) + (if IsMainDish(items[n]) then [items[n]] else [])
  }

  /** An item is kept exactly when it is on the menu and is a main dish. */
  lemma {:induction false} MainDishesMembers(items: seq<MenuItem>, x: MenuItem)
    ensures x in MainDishes(items) <==> x in items && IsMainDish(x)
  {
    if items != [] {
      var n := |items| - 1;
      assert items == items[..n] + [items[n]];
      MainDishesMembers(items[..n], x);
    }
  }

  /** The phrase spoken for one dish: its name, the word for "for", its price. */
  function Partial(dish: MenuItem, t: Lookup): string
  {
    dish.name + " " + t(For) + " " + dish.priceStudent
  }

  /** The phrases of a list of dishes, one per dish. */
  function Partials(dishes: seq<MenuItem>, t: Lookup): seq<string>
  {
    if dishes == [] then []
    else Partials(dishes[..|dishes| - 1], t) + [Partial(dishes[|dishes| - 1], t)]
  }

  /** Every phrase followed by a comma separator, in order. */
  function Listed(partials: seq<string>): string
  {
    if partials == [] then ""
    else Listed(partials[..|partials| - 1]) + partials[|partials| - 1] + ", "
  }

  /** The opening of the sentence: the "today in the canteen" phrase and a space. */
  function Header(t: Lookup): string
  {
    t(TodayInTheCanteen) + " "
  }

  /** The apology spoken when nothing can be offered. */
  function ClosedMessage(t: Lookup): string
  {
    t(Sorry) + " " + t(CanteenClosedToday)
  }

  /** The sentence for a non-empty list of phrases: all but the last listed,
      then the "as well as" connective, the last phrase and the closing wish. */
  function Sentence(partials: seq<string>, t: Lookup): string
    requires partials != []
  {
    var n := |partials| - 1;
    Header(t) + Listed(partials[..n]) + " " + t(AsWellAs) + " " + partials[n] + ". " + t(EnjoyYourMeal)
  }

  /** What the skill says for a menu. */
  function Spoken(items: seq<MenuItem>, t: Lookup): string
  {
    var mains := MainDishes(items);
    if mains == [] then ClosedMessage(t) else Sentence(Partials(mains, t), t)
  }

  /** Formats today's menu into one spoken sentence, or the apology when the
      menu has no main dish. */
  method FormatTodayLunches(json: seq<MenuItem>, t: Lookup) returns (spokenString: string)
    ensures spokenString == Spoken(json, t)
  {
    var mainLunches: seq<MenuItem> := [];
    var spokenPartials: seq<string> := [];

    for i := 0 to |json|
      invariant mainLunches == MainDishes(json[..i])
    {
      var lunch := json[i];
      if lunch.category == MainDish {
        mainLunches := mainLunches + [lunch];
      }
      assert json[..i + 1][..i] == json[..i];
    }
    assert json[..|json|] == json;

    if |mainLunches| == 0 {
      return t(Sorry) + " " + t(CanteenClosedToday);
    }

    for j := 0 to |mainLunches|
      invariant spokenPartials == Partials(mainLunches[..j], t)
    {
      var mainLunch := mainLunches[j];
      spokenPartials := spokenPartials + [mainLunch.name + " " + t(For) + " " + mainLunch.priceStudent];
      assert mainLunches[..j + 1][..j] == mainLunches[..j];
    }
    assert mainLunches[..|mainLunches|] == mainLunches;

    spokenString := t(TodayInTheCanteen) + " ";

    var n := |spokenPartials|;
    for k := 0 to n
      invariant k < n ==> spokenString == Header(t) + Listed(spokenPartials[..k])
      invariant k == n ==> spokenString == Sentence(spokenPartials, t)
    {
      var spokenPartial := spokenPartials[k];
      if k != n - 1 {
        spokenString := spokenString + spokenPartial + ", ";
        assert spokenPartials[..k + 1][..k] == spokenPartials[..k];
      } else {
        spokenString := spokenString + " " + t(AsWellAs) + " " + spokenPartial + ". ";
        spokenString := spokenString + t(EnjoyYourMeal);
      }
    }
  }

  /** Filtering distributes over concatenation: the main dishes of a menu are
      those of its first part followed by those of its second, so menu order is kept. */
  lemma {:induction false} MainDishesAppend(a: seq<MenuItem>, b: seq<MenuItem>)
    ensures MainDishes(a + b) == MainDishes(a) + MainDishes(b)
  {
    if b == [] {
      assert a + b == a;
    } else {
      var n := |b| - 1;
      assert (a + b)[..|a + b| - 1] == a + b[..n];
      MainDishesAppend(a, b[..n]);
    }
  }

  /** A single item is kept exactly when it is a main dish; side dishes,
      desserts and unknown categories are dropped. */
  lemma MainDishesOfOne(x: MenuItem)
    ensures MainDishes([x]) == if IsMainDish(x) then [x] else []
    // the first clause, spelled out for the two other named categories
    ensures x.category in {SideDish, Dessert} ==> MainDishes([x]) == []
  {
  }

  /** An item that is not a main dish changes nothing in what is spoken,
      wherever it stands on the menu: side dishes, desserts and unknown
      categories never reach the output. */
  lemma NonMainItemIsSilent(a: seq<MenuItem>, x: MenuItem, b: seq<MenuItem>, t: Lookup)
    requires !IsMainDish(x)
    ensures Spoken(a + [x] + b, t) == Spoken(a + b, t)
  {
    MainDishesOfOne(x);
    MainDishesAppend(a, [x]);
    assert MainDishes(a + [x]) == MainDishes(a);
    MainDishesAppend(a + [x], b);
    MainDishesAppend(a, b);
  }

  /** The filtered list is empty exactly when no item is a main dish. */
  lemma NoMainDishIffEmpty(items: seq<MenuItem>)
    ensures MainDishes(items) == [] <==> forall i :: 0 <= i < |items| ==> !IsMainDish(items[i])
  {
    if MainDishes(items) != [] {
      MainDishesMembers(items, MainDishes(items)[0]);
    } else {
      forall i | 0 <= i < |items| ensures !IsMainDish(items[i]) {
        MainDishesMembers(items, items[i]);
      }
    }
  }

  /** With no main dish on the menu (an empty menu included), the skill
      speaks the apology. */
  lemma ClosedWhenNoMainDish(items: seq<MenuItem>, t: Lookup)
    requires forall i :: 0 <= i < |items| ==> !IsMainDish(items[i])
    ensures Spoken(items, t) == t(Sorry) + " " + t(CanteenClosedToday)
  {
    NoMainDishIffEmpty(items);
  }

  /** One phrase per dish, in the dishes' order. */
  lemma {:induction false} PartialsPointwise(dishes: seq<MenuItem>, t: Lookup)
    ensures |Partials(dishes, t)| == |dishes|
    ensures forall i :: 0 <= i < |dishes| ==>
      Partials(dishes, t)[i] == dishes[i].name + " " + t(For) + " " + dishes[i].priceStudent
  {
    if dishes != [] {
      PartialsPointwise(dishes[..|dishes| - 1], t);
    }
  }

  /** With at least one main dish, the sentence opens with the "today in the
      canteen" phrase and a space and closes with ". " and the wish. */
  lemma SpokenFrame(items: seq<MenuItem>, t: Lookup, dish: MenuItem)
    requires dish in items && IsMainDish(dish)
    ensures t(TodayInTheCanteen) + " " <= Spoken(items, t)
    ensures var s, tail := Spoken(items, t), ". " + t(EnjoyYourMeal);
      |tail| <= |s| && s[|s| - |tail|..] == tail
  {
    MainDishesMembers(items, dish);
    PartialsPointwise(MainDishes(items), t);
    SentenceFrame(Partials(MainDishes(items), t), t);
  }

  lemma SentenceFrame(partials: seq<string>, t: Lookup)
    requires partials != []
    ensures Header(t) <= Sentence(partials, t)
    ensures var s, tail := Sentence(partials, t), ". " + t(EnjoyYourMeal);
      |tail| <= |s| && s[|s| - |tail|..] == tail
  {
  }

  /** A single main dish still goes through the last-item branch: two spaces
      after the header, then the connective. */
  lemma SingleDish(items: seq<MenuItem>, t: Lookup, dish: MenuItem)
    requires MainDishes(items) == [dish]
    ensures Spoken(items, t) ==
      t(TodayInTheCanteen) + "  " + t(AsWellAs) + " " + dish.name + " " + t(For) + " " + dish.priceStudent + ". " + t(EnjoyYourMeal)
  {
    PartialsPointwise([dish], t);
    var ps := Partials([dish], t);
    assert ps[..0] == [];
  }

  /** With two or more main dishes, the phrase before the last is followed by
      ", " and then by " " before the connective: a double space. */
  lemma SeveralDishes(items: seq<MenuItem>, t: Lookup)
    requires |MainDishes(items)| >= 2
    ensures var mains := MainDishes(items); var n := |mains| - 1;
      Spoken(items, t) ==
        Header(t) + (Listed(Partials(mains[..n - 1], t)) + Partial(mains[n - 1], t) + ", ") + " "
        + t(AsWellAs) + " " + Partial(mains[n], t) + ". " + t(EnjoyYourMeal)
  {
    SentenceOfSeveral(MainDishes(items), t);
  }

  lemma SentenceOfSeveral(mains: seq<MenuItem>, t: Lookup)
    requires |mains| >= 2
    ensures var n := |mains| - 1;
      Sentence(Partials(mains, t), t) ==
        Header(t) + (Listed(Partials(mains[..n - 1], t)) + Partial(mains[n - 1], t) + ", ") + " "
        + t(AsWellAs) + " " + Partial(mains[n], t) + ". " + t(EnjoyYourMeal)
  {
    var n := |mains| - 1;
    var ps := Partials(mains, t);
    var front := Partials(mains[..n], t);
    PartialsPointwise(mains[..n], t);
    assert ps == front + [Partial(mains[n], t)];
    assert ps[..n] == front;
    assert mains[..n][..n - 1] == mains[..n - 1];
  }

  /** `needle` occurs in `hay` at index `i`. */
  ghost predicate OccursAt(needle: string, hay: string, i: int)
  {
    0 <= i <= |hay| - |needle| && hay[i..i + |needle|] == needle
  }

  /** `needle` occurs somewhere in `hay`. */
  ghost predicate Infix(needle: string, hay: string)
  {
    exists i :: OccursAt(needle, hay, i)
  }

  lemma InfixExtend(needle: string, a: string, b: string)
    ensures Infix(needle, a) ==> Infix(needle, a + b) && Infix(needle, b + a)
  {
    if Infix(needle, a) {
      var i :| OccursAt(needle, a, i);
      assert (a + b)[i..i + |needle|] == needle;
      assert OccursAt(needle, a + b, i);
      assert (b + a)[|b| + i..|b| + i + |needle|] == needle;
      assert OccursAt(needle, b + a, |b| + i);
    }
  }

  lemma InfixRefl(needle: string)
    ensures Infix(needle, needle)
  {
    assert needle[0..|needle|] == needle;
    assert OccursAt(needle, needle, 0);
  }

  /** Each listed phrase occurs in the list. */
  lemma {:induction false} ListedContains(partials: seq<string>, j: nat)
    requires j < |partials|
    ensures Infix(partials[j], Listed(partials))
  {
    var n := |partials| - 1;
    if j == n {
      InfixRefl(partials[j]);
      InfixExtend(partials[j], partials[j], Listed(partials[..n]));
    } else {
      ListedContains(partials[..n], j);
      InfixExtend(partials[j], Listed(partials[..n]), partials[n]);
    }
    InfixExtend(partials[j], Listed(partials[..n]) + partials[n], ", ");
  }

  /** Each phrase occurs in the sentence built from them. */
  lemma SentenceContains(partials: seq<string>, t: Lookup, j: nat)
    requires j < |partials|
    ensures Infix(partials[j], Sentence(partials, t))
  {
    var p := partials[j];
    var n := |partials| - 1;
    var lead := Header(t) + Listed(partials[..n]) + " " + t(AsWellAs) + " ";
    if j == n {
      InfixRefl(p);
      InfixExtend(p, p, lead);
    } else {
      ListedContains(partials[..n], j);
      InfixExtend(p, Listed(partials[..n]), Header(t));
      InfixExtend(p, Header(t) + Listed(partials[..n]), " ");
      InfixExtend(p, Header(t) + Listed(partials[..n]) + " ", t(AsWellAs));
      InfixExtend(p, Header(t) + Listed(partials[..n]) + " " + t(AsWellAs), " ");
      InfixExtend(p, lead, partials[n]);
    }
    InfixExtend(p, lead + partials[n], ". ");
    InfixExtend(p, lead + partials[n] + ". ", t(EnjoyYourMeal));
  }

  /** Every main dish on the menu is spoken, with its name and its price. */
  lemma EveryMainDishIsSpoken(items: seq<MenuItem>, t: Lookup, dish: MenuItem)
    requires dish in items && IsMainDish(dish)
    ensures Infix(dish.name + " " + t(For) + " " + dish.priceStudent, Spoken(items, t))
  {
    var mains := MainDishes(items);
    MainDishesMembers(items, dish);
    var j :| 0 <= j < |mains| && mains[j] == dish;
    PartialsPointwise(mains, t);
    SentenceContains(Partials(mains, t), t, j);
  }
}
