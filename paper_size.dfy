/**
 * The paper-size catalogue offered in the scanning window. Sizes are held in
 * hundredths of an inch, which represents every catalogue entry exactly.
 */
module PaperSizes {

  /** An immutable paper size: width and height in hundredths of an inch, and its name. */
  datatype PaperSize = PaperSize(width: int, height: int, description: string)

  /** The size the catalogue hands back as its default. */
  const Letter: PaperSize := PaperSize(850, 1100, "Letter")

  /** The names of the catalogue, in order. */
  const Names: seq<string> := [
    "Statement", "Executive", "Letter", "Note", "Folio", "Legal", "Tabloid",
    "Ledger", "A5", "A4", "A3", "B5", "B4", "Quarto"
  ]

  /**
   * `GetSizes`: the fourteen sizes in catalogue order, together with the
   * default, which is the very entry at position 2.
   */
  function GetSizes(): (r: (seq<PaperSize>, PaperSize))
    ensures |r.0| == 14 && r.1 == r.0[2] && r.1 == Letter
    ensures forall i :: 0 <= i < |r.0| ==> r.0[i].description == Names[i]
    ensures forall i :: 0 <= i < |r.0| ==> r.0[i].width > 0 && r.0[i].height > 0
  {
    var defaultSize := Letter;
    ([
      PaperSize(550, 850, "Statement"),
      PaperSize(750, 1000, "Executive"),
      defaultSize,
      PaperSize(850, 1100, "Note"),
      PaperSize(850, 1300, "Folio"),
      PaperSize(850, 1400, "Legal"),
      PaperSize(1100, 1700, "Tabloid"),
      PaperSize(1700, 1100, "Ledger"),
      PaperSize(583, 827, "A5"),
      PaperSize(827, 1169, "A4"),
      PaperSize(1169, 1654, "A3"),
      PaperSize(717, 1012, "B5"),
      PaperSize(984, 1394, "B4"),
      PaperSize(846, 1083, "Quarto")
    ], defaultSize)
  }

  /** The catalogue names are pairwise distinct. */
  lemma NamesDistinct()
    ensures forall i, j :: 0 <= i < j < |Names| ==> Names[i] != Names[j]
  {
  }

  /** So a lookup by description matches at most one catalogue entry. */
  lemma {:induction false} DescriptionsIdentifyEntries(i: int, j: int)
    requires 0 <= i < 14 && 0 <= j < 14
    requires GetSizes().0[i].description == GetSizes().0[j].description
    ensures i == j
  {
    NamesDistinct();
    var sizes := GetSizes().0;
    assert sizes[i].description == Names[i] && sizes[j].description == Names[j];
  }

  /** Ledger is Tabloid turned on its side. */
  lemma LedgerIsTabloidRotated()
    ensures var sizes := GetSizes().0;
      && sizes[6].description == "Tabloid" && sizes[7].description == "Ledger"
      && sizes[7].width == sizes[6].height && sizes[7].height == sizes[6].width
  {
  }
}
