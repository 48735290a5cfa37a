// Small contents the server would load, for the inputs at which a promise fails.
module Samples {
  import opened Common
  import opened Money
  import opened Content

  const OPEN := Unlock(FromStart, 0, "", "", 0)

  function Wheat(cost: nat, sell: nat, unlock: Unlock): Crop {
    Crop("wheat", Fast, cost, 1, sell, 0, unlock)
  }

  // Wheat to choose, one more crop of each other kind, and the shelves all but bare.
  function Sample(wheat: Crop, others: nat, zones: seq<Zone>, start: Start, golden: Golden): Content {
    Content([wheat, Crop("oak", Slow, others, 60, 10, 0, OPEN), Crop("orchid", Risky, others, 60, 10, 50, OPEN)],
            [], [], [], zones, [], EventsConfig(1, 1, 1, 1), [], start, Land(100, 100, 100), PrestigeConfig(1, 1),
            Automation(1, 100, 1, 1), Gifts(1, 1, 0, 0, 0), golden, Moon(0, ""), Critters(0, 0, 0, 0, 0, []),
            ScarecrowFields(0, 100, 1, 1, 1, 1, 1, 0, 0, []), Flavor(false, 0, 0, 0))
  }

  lemma SampleIsValid(wheat: Crop, others: nat, zones: seq<Zone>, start: Start, golden: Golden)
    requires wheat.id == "wheat" && wheat.archetype.Fast? && wheat.failChancePct == 0 && start.plots <= 100
    requires var c := Sample(wheat, others, zones, start, golden); ZonesOk(c) && UnlockOk(c, wheat.unlock)
    ensures Validated(Sample(wheat, others, zones, start, golden))
  {
    var c := Sample(wheat, others, zones, start, golden);
    assert c.crops[0].archetype.Fast? && c.crops[1].archetype.Slow? && c.crops[2].archetype.Risky?;
  }
}
