/** The skill's answers for a few concrete menus, in both shipped locales. */
module Scenarios {
  import opened Locale
  import opened Lunches
  import opened Fetch

  const English: Lookup := Translator("en-US")
  const German: Lookup := Translator("de-DE")

  lemma EnglishWord(k: Key)
    ensures English(k) == EnglishStrings[k]
  {
  }

  lemma GermanWord(k: Key)
    ensures German(k) == GermanStrings[k]
  {
  }

  /** One main dish: the connective is still spoken, after a double space. */
  lemma EnglishSingleDish()
    ensures Spoken([MenuItem("Schnitzel", MainDish, "3.50")], English)
      == "Todays lunches for the canteen are  as well as Schnitzel for 3.50. Enjoy your meal!"
  {
    var schnitzel := MenuItem("Schnitzel", MainDish, "3.50");
    MainDishesOfOne(schnitzel);
    SingleDish([schnitzel], English, schnitzel);
    EnglishWord(TodayInTheCanteen);
    EnglishWord(AsWellAs);
    EnglishWord(For);
    EnglishWord(EnjoyYourMeal);
    assert Spoken([schnitzel], English) ==
      "Todays lunches for the canteen are" + "  " + "as well as" + " " + "Schnitzel" + " " + "for" + " " + "3.50" + ". " + "Enjoy your meal!";
    EnglishSingleDishText();
  }

  lemma EnglishSingleDishText()
    ensures "Todays lunches for the canteen are" + "  " + "as well as" + " " + "Schnitzel" + " " + "for" + " " + "3.50" + ". " + "Enjoy your meal!"
         == "Todays lunches for the canteen are  as well as Schnitzel for 3.50. Enjoy your meal!"
  {
    var s := "Todays lunches for the canteen are";
    assert s + "  " + "as well as" == "Todays lunches for the canteen are  as well as";
    s := "Todays lunches for the canteen are  as well as";
    assert s + " " + "Schnitzel" == "Todays lunches for the canteen are  as well as Schnitzel";
    s := "Todays lunches for the canteen are  as well as Schnitzel";
    assert s + " " + "for" == "Todays lunches for the canteen are  as well as Schnitzel for";
    s := "Todays lunches for the canteen are  as well as Schnitzel for";
    assert s + " " + "3.50" == "Todays lunches for the canteen are  as well as Schnitzel for 3.50";
    s := "Todays lunches for the canteen are  as well as Schnitzel for 3.50";
    assert s + ". " + "Enjoy your meal!" == "Todays lunches for the canteen are  as well as Schnitzel for 3.50. Enjoy your meal!";
  }

  /** A menu with two main dishes and, between them, a side dish and a dessert. */
  const Suppe := MenuItem("Suppe", MainDish, "2.00")
  const Pasta := MenuItem("Pasta", MainDish, "3.00")
  const MixedMenu: seq<MenuItem> :=
    [Suppe, MenuItem("Reis", SideDish, "0.60"), MenuItem("Pudding", Dessert, "0.90"), Pasta]

  /** The side dish and the dessert are filtered out; the order is kept. */
  lemma MixedMenuMainDishes()
    ensures MainDishes(MixedMenu) == [Suppe, Pasta]
  {
    var reis, pudding := MixedMenu[1], MixedMenu[2];
    assert MixedMenu == [Suppe, reis] + [pudding, Pasta];
    assert MainDishes([Suppe, reis]) == [Suppe] by {
      MainDishesOfOne(Suppe);
      MainDishesOfOne(reis);
      MainDishesAppend([Suppe], [reis]);
      assert [Suppe] + [reis] == [Suppe, reis];
    }
    assert MainDishes([pudding, Pasta]) == [Pasta] by {
      MainDishesOfOne(pudding);
      MainDishesOfOne(Pasta);
      MainDishesAppend([pudding], [Pasta]);
      assert [pudding] + [Pasta] == [pudding, Pasta];
    }
    MainDishesAppend([Suppe, reis], [pudding, Pasta]);
  }

  /** Two main dishes: a double space precedes "sowie". */
  lemma GermanTwoDishes()
    ensures Spoken(MixedMenu, German)
      == "Heute gibt es in der Mensa Suppe für 2.00,  sowie Pasta für 3.00. Guten Appetit!"
  {
    MixedMenuMainDishes();
    SeveralDishes(MixedMenu, German);
    assert [Suppe, Pasta][..0] == [];
    assert German(TodayInTheCanteen) == "Heute gibt es in der Mensa" by { GermanWord(TodayInTheCanteen); }
    assert German(AsWellAs) == "sowie" by { GermanWord(AsWellAs); }
    assert German(For) == "für" by { GermanWord(For); }
    assert German(EnjoyYourMeal) == "Guten Appetit!" by { GermanWord(EnjoyYourMeal); }
    assert Spoken(MixedMenu, German) ==
      "Heute gibt es in der Mensa" + " " + ("" + ("Suppe" + " " + "für" + " " + "2.00") + ", ") + " "
      + "sowie" + " " + ("Pasta" + " " + "für" + " " + "3.00") + ". " + "Guten Appetit!";
    GermanTwoDishesText();
  }

  lemma GermanTwoDishesText()
    ensures "Heute gibt es in der Mensa" + " " + ("" + ("Suppe" + " " + "für" + " " + "2.00") + ", ") + " "
      + "sowie" + " " + ("Pasta" + " " + "für" + " " + "3.00") + ". " + "Guten Appetit!"
         == "Heute gibt es in der Mensa Suppe für 2.00,  sowie Pasta für 3.00. Guten Appetit!"
  {
    assert "Suppe" + " " + "für" + " " + "2.00" == "Suppe für 2.00";
    assert "Pasta" + " " + "für" + " " + "3.00" == "Pasta für 3.00";
    assert "" + "Suppe für 2.00" + ", " == "Suppe für 2.00, ";
    assert "Heute gibt es in der Mensa" + " " + "Suppe für 2.00, " == "Heute gibt es in der Mensa Suppe für 2.00, ";
    assert "Heute gibt es in der Mensa Suppe für 2.00, " + " " + "sowie" + " " == "Heute gibt es in der Mensa Suppe für 2.00,  sowie ";
    assert "Heute gibt es in der Mensa Suppe für 2.00,  sowie " + "Pasta für 3.00" + ". " == "Heute gibt es in der Mensa Suppe für 2.00,  sowie Pasta für 3.00. ";
  }

  /** The empty menu gets the apology, in each locale. */
  lemma EnglishApology()
    ensures Spoken([], English) == "I am sorry. The canteen is closed today."
  {
    assert English(Sorry) == "I am sorry." by { EnglishWord(Sorry); }
    assert English(CanteenClosedToday) == "The canteen is closed today." by { EnglishWord(CanteenClosedToday); }
    assert Spoken([], English) == "I am sorry." + " " + "The canteen is closed today.";
    EnglishApologyText();
  }

  lemma EnglishApologyText()
    ensures "I am sorry." + " " + "The canteen is closed today." == "I am sorry. The canteen is closed today."
  {
  }

  lemma GermanApology()
    ensures Spoken([], German) == "Es tut mir Leid. Die Mensa hat heute geschlossen."
  {
    assert German(Sorry) == "Es tut mir Leid." by { GermanWord(Sorry); }
    assert German(CanteenClosedToday) == "Die Mensa hat heute geschlossen." by { GermanWord(CanteenClosedToday); }
    assert Spoken([], German) == "Es tut mir Leid." + " " + "Die Mensa hat heute geschlossen.";
    GermanApologyText();
  }

  lemma GermanApologyText()
    ensures "Es tut mir Leid." + " " + "Die Mensa hat heute geschlossen." == "Es tut mir Leid. Die Mensa hat heute geschlossen."
  {
  }

  /** A failed request reads, in each locale, as the empty-menu apology. */
  lemma TransportErrorApology()
    ensures Reply(TransportError, English) == "I am sorry. The canteen is closed today."
    ensures Reply(TransportError, German) == "Es tut mir Leid. Die Mensa hat heute geschlossen."
  {
    EnglishApology();
    GermanApology();
    TransportErrorReadsAsClosed([], English);
    TransportErrorReadsAsClosed([], German);
  }
}
