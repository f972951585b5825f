// Whole interactions with the page, from a freshly mounted form: each method
// drives the handlers in the order a user would and states what the page
// then shows.

module PageScenarios {
  import Text
  import Page

  /** Fills one triple field by field, as typing into the three inputs does. */
  method FillNether(f: Page.Form, x: string, y: string, z: string)
    requires f.Valid()
    modifies f
    ensures f.Valid()
    ensures f.netherCoords == Page.Coordinates(x, y, z)
    ensures f.validationErrors == old(f.validationErrors) - {Page.FieldKey(Page.Nether, Page.X), Page.FieldKey(Page.Nether, Page.Y), Page.FieldKey(Page.Nether, Page.Z)}
    ensures f.direction == old(f.direction) && f.overworldCoords == old(f.overworldCoords)
    ensures f.result == old(f.result) && f.isLoading == old(f.isLoading) && f.pending == old(f.pending)
  {
    f.UpdateNetherCoords(Page.X, x);
    f.UpdateNetherCoords(Page.Y, y);
    f.UpdateNetherCoords(Page.Z, z);
  }

  method FillOverworld(f: Page.Form, x: string, y: string, z: string)
    requires f.Valid()
    modifies f
    ensures f.Valid()
    ensures f.overworldCoords == Page.Coordinates(x, y, z)
    ensures f.validationErrors == old(f.validationErrors) - {Page.FieldKey(Page.Overworld, Page.X), Page.FieldKey(Page.Overworld, Page.Y), Page.FieldKey(Page.Overworld, Page.Z)}
    ensures f.direction == old(f.direction) && f.netherCoords == old(f.netherCoords)
    ensures f.result == old(f.result) && f.isLoading == old(f.isLoading) && f.pending == old(f.pending)
  {
    f.UpdateOverworldCoords(Page.X, x);
    f.UpdateOverworldCoords(Page.Y, y);
    f.UpdateOverworldCoords(Page.Z, z);
  }

  /** Nether (10, 64, -3), Nether to Overworld: the page shows Overworld
      (80, 64, -24) and no field is flagged. */
  method NetherToOverworldScenario() returns (shown: Page.Option<Page.Shown>, errors: set<Page.FieldKey>, loading: bool)
    ensures shown == Page.Some(Page.Shows(Page.Summary(Page.Nether, Page.Coordinates("10", "64", "-3"),
      Page.Reading(Text.Int(80), Text.Int(64), Text.Int(-24)))))
    ensures errors == {} && !loading
  {
    var f := new Page.Form();
    FillNether(f, "10", "64", "-3");
    NetherExampleFacts();
    f.HandleConvert();
    assert f.isLoading;
    f.Complete();
    shown, errors, loading := f.result, f.validationErrors, f.isLoading;
  }

  /** Overworld (80, 64, -24), Overworld to Nether, with the Nether inputs left
      empty: because the timer passes the two triples in swapped order, it is
      the empty Nether triple that is re-validated under the "overworld"
      prefix, so the page shows "undefined" and flags all three Overworld
      fields, although the user filled them in. */
  method OverworldToNetherScenario() returns (shown: Page.Option<Page.Shown>, errors: set<Page.FieldKey>, loading: bool)
    ensures shown == Page.Some(Page.UndefinedText)
    ensures errors == {Page.FieldKey(Page.Overworld, Page.X), Page.FieldKey(Page.Overworld, Page.Y), Page.FieldKey(Page.Overworld, Page.Z)}
    ensures !loading
  {
    var f := new Page.Form();
    f.HandleDirectionToggle();
    FillOverworld(f, "80", "64", "-24");
    f.HandleConvert();
    assert f.isLoading;
    EmptyFacts(Page.Overworld);
    f.Complete();
    shown, errors, loading := f.result, f.validationErrors, f.isLoading;
  }

  /** The same swap with both triples filled: the page labels the Nether text
      (16, 5, -9) as Overworld and shows it divided by 8, ignoring the
      Overworld text (80, 64, -24). */
  method SwappedTriplesScenario() returns (shown: Page.Option<Page.Shown>)
    ensures shown == Page.Some(Page.Shows(Page.Summary(Page.Overworld, Page.Coordinates("16", "5", "-9"),
      Page.Reading(Text.Int(2), Text.Int(5), Text.Int(-2)))))
  {
    var f := new Page.Form();
    FillNether(f, "16", "5", "-9");
    f.HandleDirectionToggle();
    FillOverworld(f, "80", "64", "-24");
    f.HandleConvert();
    assert f.isLoading;
    SwappedTriplesFacts();
    f.Complete();
    shown := f.result;
  }

  lemma SwappedTriplesFacts()
    ensures Page.FailingKeys(Page.Coordinates("16", "5", "-9"), Page.Overworld) == {}
    ensures Page.ConvertOverworldToNether(Page.Coordinates("16", "5", "-9")) == Page.Reading(Text.Int(2), Text.Int(5), Text.Int(-2))
  {
    assert Text.ToNumber("16") == Text.Int(16);
    assert Text.ToNumber("-9") == Text.Int(-9);
  }

  lemma MissingFieldFacts()
    ensures Page.FailingKeys(Page.Coordinates("10", " 64 ", "  "), Page.Nether) == {Page.FieldKey(Page.Nether, Page.Z)}
  {
    assert !Page.Missing("10") && !Page.Missing(" 64 ") && Page.Missing("  ");
  }

  /** The facts about Nether (10, 64, -3) that the Nether to Overworld runs use. */
  lemma NetherExampleFacts()
    ensures Page.FailingKeys(Page.Coordinates("10", "64", "-3"), Page.Nether) == {}
    ensures Page.ConvertNetherToOverworld(Page.Coordinates("10", "64", "-3")) == Page.Reading(Text.Int(80), Text.Int(64), Text.Int(-24))
  {
    assert Text.ToNumber("10") == Text.Int(10);
    assert Text.ToNumber("64") == Text.Int(64);
    assert Text.ToNumber("-3") == Text.Int(-3);
  }

  /** An empty triple fails on every axis, under either prefix. */
  lemma EmptyFacts(d: Page.Dimension)
    ensures Page.FailingKeys(Page.Empty, d) == {Page.FieldKey(d, Page.X), Page.FieldKey(d, Page.Y), Page.FieldKey(d, Page.Z)}
  {
    assert Page.Missing("");
  }

  /** Convert with the z field empty: nothing is computed, only z is flagged,
      and a later toggle clears the flag together with the result. */
  method MissingFieldScenario() returns (flagged: set<Page.FieldKey>, loading: bool, shown: Page.Option<Page.Shown>, afterToggle: set<Page.FieldKey>)
    ensures flagged == {Page.FieldKey(Page.Nether, Page.Z)}
    ensures !loading && shown == Page.None
    ensures afterToggle == {}
  {
    var f := new Page.Form();
    f.UpdateNetherCoords(Page.X, "10");
    f.UpdateNetherCoords(Page.Y, " 64 ");
    f.UpdateNetherCoords(Page.Z, "  ");
    MissingFieldFacts();
    f.HandleConvert();
    flagged, loading, shown := f.validationErrors, f.isLoading, f.result;
    f.HandleDirectionToggle();
    afterToggle := f.validationErrors;
  }

  /** Editing a flagged field clears that field's flag and no other. */
  method EditClearsOwnFlagScenario() returns (before: set<Page.FieldKey>, after: set<Page.FieldKey>)
    ensures before == {Page.FieldKey(Page.Nether, Page.X), Page.FieldKey(Page.Nether, Page.Y), Page.FieldKey(Page.Nether, Page.Z)}
    ensures after == {Page.FieldKey(Page.Nether, Page.X), Page.FieldKey(Page.Nether, Page.Z)}
  {
    var f := new Page.Form();
    EmptyFacts(Page.Nether);
    f.HandleConvert();
    before := f.validationErrors;
    f.UpdateNetherCoords(Page.Y, "5");
    after := f.validationErrors;
  }

  /** Edits and a toggle made while the conversion is pending do not change
      what the timer shows: it converts what was there when convert was pressed. */
  method StaleSnapshotScenario() returns (shown: Page.Option<Page.Shown>)
    ensures shown == Page.Some(Page.Shows(Page.Summary(Page.Nether, Page.Coordinates("10", "64", "-3"),
      Page.Reading(Text.Int(80), Text.Int(64), Text.Int(-24)))))
  {
    var f := new Page.Form();
    FillNether(f, "10", "64", "-3");
    NetherExampleFacts();
    f.HandleConvert();
    assert f.isLoading;
    f.UpdateNetherCoords(Page.X, "99");
    f.HandleDirectionToggle();
    f.Complete();
    shown := f.result;
  }

  /** With the arguments in parameter order, the same Overworld (80, 64, -24)
      request would show Nether (10, 64, -3). */
  lemma IntendedOverworldToNetherExample()
    ensures Page.IntendedCompletionResult(Page.Snapshot(Page.OverworldToNether, Page.Empty, Page.Coordinates("80", "64", "-24")))
      == Page.Shows(Page.Summary(Page.Overworld, Page.Coordinates("80", "64", "-24"),
           Page.Reading(Text.Int(10), Text.Int(64), Text.Int(-3))))
  {
    var overworld := Page.Coordinates("80", "64", "-24");
    assert Page.FailingKeys(overworld, Page.Overworld) == {} by {
      assert !Page.Missing("80") && !Page.Missing("64") && !Page.Missing("-24");
    }
    assert Page.ConvertOverworldToNether(overworld) == Page.Reading(Text.Int(10), Text.Int(64), Text.Int(-3)) by {
      Text.TrimFixed("80");
      assert Text.DigitsValue("80") == 80;
      assert Text.ToNumber("80") == Text.Int(80);
      assert Text.ToNumber("64") == Text.Int(64);
      assert Text.ToNumber("-24") == Text.Int(-24);
    }
  }
}
