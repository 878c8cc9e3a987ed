/**
 * The fixed tables of the customer-master export: the DATEV columns and the
 * default collective accounts.
 */
module CustomerColumns {
  /** `CSV_HEADER_LIST`: the 146 columns of the DATEV debtor/creditor format, in order. */
  function CsvHeaderList(): seq<string>
  {
    Columns0()
    + Columns1()
    + Columns2()
    + Columns3()
    + Columns4()
    + Columns5()
    + Columns6()
    + Columns7()
    + Columns8()
    + Columns9()
    + Columns10()
    + Columns11()
    + Columns12()
    + Columns13()
    + Columns14()
  }

  function Columns0(): seq<string> { ["Konto", "Name (Adressattyp Unternehmen)", "Unternehmensgegenstand", "Name (Adressattyp natürl. Person)", "Vorname (Adressattyp natürl. Person)", "Name (Adressattyp keine Angabe)", "Adressattyp", "Kurzbezeichnung", "EU-Land", "EU-UStID"] }
  function Columns1(): seq<string> { ["Anrede", "Titel/Akad. Grad", "Adelstitel", "Namensvorsatz", "Adressart", "Straße", "Postfach", "Postleitzahl", "Ort", "Land"] }
  function Columns2(): seq<string> { ["Versandzusatz", "Adresszusatz", "Abweichende Anrede", "Abw. Zustellbezeichnung 1", "Abw. Zustellbezeichnung 2", "Kennz. Korrespondenzadresse", "Adresse Gültig von", "Adresse Gültig bis", "Telefon", "Bemerkung (Telefon)"] }
  function Columns3(): seq<string> { ["Telefon GL", "Bemerkung (Telefon GL)", "E-Mail", "Bemerkung (E-Mail)", "Internet", "Bemerkung (Internet)", "Fax", "Bemerkung (Fax)", "Sonstige", "Bemerkung (Sonstige)"] }
  function Columns4(): seq<string> { ["Bankleitzahl 1", "Bankbezeichnung 1", "Bank-Kontonummer 1", "Länderkennzeichen 1", "IBAN-Nr. 1", "Leerfeld", "SWIFT-Code 1", "Abw. Kontoinhaber 1", "Kennz. Hauptbankverb. 1", "Bankverb 1 Gültig von"] }
  function Columns5(): seq<string> { ["Bankverb 1 Gültig bis", "Bankleitzahl 2", "Bankbezeichnung 2", "Bank-Kontonummer 2", "Länderkennzeichen 2", "IBAN-Nr. 2", "Leerfeld", "SWIFT-Code 2", "Abw. Kontoinhaber 2", "Kennz. Hauptbankverb. 2"] }
  function Columns6(): seq<string> { ["Bankverb 2 Gültig von", "Bankverb 2 Gültig bis", "Bankleitzahl 3", "Bankbezeichnung 3", "Bank-Kontonummer 3", "Länderkennzeichen 3", "IBAN-Nr. 3", "Leerfeld", "SWIFT-Code 3", "Abw. Kontoinhaber 3"] }
  function Columns7(): seq<string> { ["Kennz. Hauptbankverb. 3", "Bankverb 3 Gültig von", "Bankverb 3 Gültig bis", "Bankleitzahl 4", "Bankbezeichnung 4", "Bank-Kontonummer 4", "Länderkennzeichen 4", "IBAN-Nr. 4", "Leerfeld", "SWIFT-Code 4"] }
  function Columns8(): seq<string> { ["Abw. Kontoinhaber 4", "Kennz. Hauptbankverb. 4", "Bankverb 4 Gültig von", "Bankverb 4 Gültig bis", "Bankleitzahl 5", "Bankbezeichnung 5", "Bank-Kontonummer 5", "Länderkennzeichen 5", "IBAN-Nr. 5", "Leerfeld"] }
  function Columns9(): seq<string> { ["SWIFT-Code 5", "Abw. Kontoinhaber 5", "Kennz. Hauptbankverb. 5", "Bankverb 5 Gültig von", "Bankverb 5 Gültig bis", "Leerfeld", "Briefanrede", "Grußformel", "Kunden-/Lief.-Nr.", "Steuernummer"] }
  function Columns10(): seq<string> { ["Sprache", "Ansprechpartner", "Vertreter", "Sachbearbeiter", "Diverse-Konto", "Ausgabeziel", "Währungssteuerung", "Kreditlimit (Debitor)", "Zahlungsbedingung", "Fälligkeit in Tagen (Debitor)"] }
  function Columns11(): seq<string> { ["Skonto in Prozent (Debitor)", "Kreditoren-Ziel 1 Tg.", "Kreditoren-Skonto 1 %", "Kreditoren-Ziel 2 Tg.", "Kreditoren-Skonto 2 %", "Kreditoren-Ziel 3 Brutto Tg.", "Kreditoren-Ziel 4 Tg.", "Kreditoren-Skonto 4 %", "Kreditoren-Ziel 5 Tg.", "Kreditoren-Skonto 5 %"] }
  function Columns12(): seq<string> { ["Mahnung", "Kontoauszug", "Mahntext 1", "Mahntext 2", "Mahntext 3", "Kontoauszugstext", "Mahnlimit Betrag", "Mahnlimit %", "Zinsberechnung", "Mahnzinssatz 1"] }
  function Columns13(): seq<string> { ["Mahnzinssatz 2", "Mahnzinssatz 3", "Lastschrift", "Leerfeld", "Mandantenbank", "Zahlungsträger", "Indiv. Feld 1", "Indiv. Feld 2", "Indiv. Feld 3", "Indiv. Feld 4"] }
  function Columns14(): seq<string> { ["Indiv. Feld 5", "Indiv. Feld 6", "Indiv. Feld 7", "Indiv. Feld 8", "Indiv. Feld 9", "Indiv. Feld 10"] }

  /** `DEFAULT_KTR`: name and account number of each collective debtor account, in insertion order. */
  function DefaultKtr(): seq<(string, int)>
  {
    [
    ("A Diverse Debitoren", 10000),
    ("B Diverse Debitoren", 12000),
    ("C Diverse Debitoren", 14000),
    ("D Diverse Debitoren", 16000),
    ("E Diverse Debitoren", 18000),
    ("F Diverse Debitoren", 20000),
    ("G Diverse Debitoren", 22000),
    ("H Diverse Debitoren", 24000),
    ("I Diverse Debitoren", 26000),
    ("J Diverse Debitoren", 28000),
    ("K Diverse Debitoren", 30000),
    ("l Diverse Debitoren", 32000),
    ("M Diverse Debitoren", 34000),
    ("N Diverse Debitoren", 36000),
    ("O Diverse Debitoren", 37000),
    ("P Diverse Debitoren", 40000),
    ("Q Diverse Debitoren", 42000),
    ("R Diverse Debitoren", 44000),
    ("S Diverse Debitoren", 46000),
    ("SCH Diverse Debitoren", 48000),
    ("ST Diverse Debitoren", 50000),
    ("T Diverse Debitoren", 52000),
    ("U Diverse Debitoren", 54000),
    ("V Diverse Debitoren", 56000),
    ("W Diverse Debitoren", 58000),
    ("Z Diverse Debitoren", 64000)
    ]
  }
}
