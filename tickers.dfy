/**
 * The scanned universe (app.py:17-28) and the display-name rewrite of
 * `analyze_stock` (app.py:144): strip the ".NS" market suffix, then apply
 * the two renamings ETERNAL -> ZOMATO and TMCV -> TATAMOTORS-CV.
 */
module Tickers {

  /** The NSE symbols scanned, in scan order. */
  const Universe: seq<string> :=
    ["ADANIENT.NS", "ADANIPORTS.NS", "APOLLOHOSP.NS", "ASIANPAINT.NS", "AXISBANK.NS"] +
    ["BAJAJ-AUTO.NS", "BAJFINANCE.NS", "BAJAJFINSV.NS", "BEL.NS", "BPCL.NS"] +
    ["BHARTIARTL.NS", "BRITANNIA.NS", "CIPLA.NS", "COALINDIA.NS", "DRREDDY.NS"] +
    ["EICHERMOT.NS", "GRASIM.NS", "HCLTECH.NS", "HDFCBANK.NS", "HDFCLIFE.NS"] +
    ["HEROMOTOCO.NS", "HINDALCO.NS", "HINDUNILVR.NS", "ICICIBANK.NS", "ITC.NS"] +
    ["INDUSINDBK.NS", "INFY.NS", "JSWSTEEL.NS", "KOTAKBANK.NS", "LT.NS"] +
    ["M&M.NS", "MARUTI.NS", "NESTLEIND.NS", "NTPC.NS", "ONGC.NS"] +
    ["POWERGRID.NS", "RELIANCE.NS", "SBILIFE.NS", "SBIN.NS", "SUNPHARMA.NS"] +
    ["TCS.NS", "TATACONSUM.NS", "TATASTEEL.NS", "TECHM.NS", "TITAN.NS"] +
    ["TMCV.NS", "TRENT.NS", "ULTRACEMCO.NS", "UPL.NS", "WIPRO.NS", "ETERNAL.NS"]

  /** `pat` occurs in `s` at position `i`. */
  predicate OccursAt(s: string, pat: string, i: nat) {
    i + |pat| <= |s| && s[i..i + |pat|] == pat
  }

  /** `pat` occurs somewhere in `s` (checked left to right). */
  predicate Contains(s: string, pat: string)
    decreases |s|
  {
    OccursAt(s, pat, 0) || (|s| > 0 && Contains(s[1..], pat))
  }

  /**
   * Python's `s.replace(pat, rep)` for a non-empty `pat`: scanning left to
   * right, every occurrence that does not overlap an earlier replaced one is
   * replaced.
   */
  function ReplaceAll(s: string, pat: string, rep: string): (r: string)
    requires |pat| > 0
    ensures |s| < |pat| ==> r == s
    ensures |rep| == |pat| ==> |r| == |s|
    ensures |rep| < |pat| ==> |r| <= |s|
    decreases |s|
  {
    if |s| < |pat| then s
    else if s[..|pat|] == pat then rep + ReplaceAll(s[|pat|..], pat, rep)
    else [s[0]] + ReplaceAll(s[1..], pat, rep)
  }

  /** A string without an occurrence of the pattern is left unchanged. */
  lemma {:induction false} ReplaceAbsent(s: string, pat: string, rep: string)
    requires |pat| > 0 && !Contains(s, pat)
    ensures ReplaceAll(s, pat, rep) == s
  {
    if |s| >= |pat| {
      assert s[..|pat|] != pat;
      ReplaceAbsent(s[1..], pat, rep);
      assert [s[0]] + s[1..] == s;
    }
  }

  /** Removing ".NS" from a dot-free base followed by ".NS" gives the base back. */
  lemma {:induction false} StripSuffix(base: string)
    requires '.' !in base
    ensures ReplaceAll(base + ".NS", ".NS", "") == base
  {
    var s := base + ".NS";
    if base == [] {
      assert s[..3] == ".NS" && s[3..] == [];
    } else {
      assert s[0] == base[0] != '.';
      assert s[..3] != ".NS";
      assert s[1..] == base[1..] + ".NS";
      StripSuffix(base[1..]);
      assert [base[0]] + base[1..] == base;
    }
  }

  /** The display name of a symbol (app.py:144). */
  function DisplayName(ticker: string): string {
    ReplaceAll(ReplaceAll(ReplaceAll(ticker, ".NS", ""), "ETERNAL", "ZOMATO"), "TMCV", "TATAMOTORS-CV")
  }

  /** A name with none of the three patterns is shown unchanged. */
  lemma DisplayUnchanged(s: string)
    requires !Contains(s, ".NS") && !Contains(s, "ETERNAL") && !Contains(s, "TMCV")
    ensures DisplayName(s) == s
  {
    ReplaceAbsent(s, ".NS", "");
    ReplaceAbsent(s, "ETERNAL", "ZOMATO");
    ReplaceAbsent(s, "TMCV", "TATAMOTORS-CV");
  }

  /** A symbol "<base>.NS" whose base has no dot and neither renamed name is shown as its base. */
  lemma PlainSymbolName(base: string)
    requires '.' !in base && !Contains(base, "ETERNAL") && !Contains(base, "TMCV")
    ensures DisplayName(base + ".NS") == base
  {
    StripSuffix(base);
    ReplaceAbsent(base, "ETERNAL", "ZOMATO");
    ReplaceAbsent(base, "TMCV", "TATAMOTORS-CV");
  }

  /** A pattern that has a character missing from `s` does not occur in `s`. */
  lemma {:induction false} MissingChar(s: string, pat: string, c: char)
    requires c in pat && c !in s
    ensures !Contains(s, pat)
  {
    if |pat| <= |s| {
      assert forall x | x in s[..|pat|] :: x in s;
      assert c !in s[..|pat|];
    }
    if |s| > 0 {
      MissingChar(s[1..], pat, c);
    }
  }

  /** A pattern occurs in itself, and replacing all of it gives the replacement. */
  lemma ReplaceWhole(pat: string, rep: string)
    requires |pat| > 0
    ensures ReplaceAll(pat, pat, rep) == rep
  {
    assert pat[..|pat|] == pat && pat[|pat|..] == [];
  }

  /** ETERNAL -> ZOMATO. */
  lemma EternalShownAsZomato()
    ensures DisplayName("ETERNAL.NS") == "ZOMATO"
  {
    assert "ETERNAL.NS" == "ETERNAL" + ".NS";
    StripSuffix("ETERNAL");
    ReplaceWhole("ETERNAL", "ZOMATO");
    MissingChar("ZOMATO", "TMCV", 'C');
    ReplaceAbsent("ZOMATO", "TMCV", "TATAMOTORS-CV");
  }

  /** TMCV -> TATAMOTORS-CV. */
  lemma TmcvShownAsTataMotorsCv()
    ensures DisplayName("TMCV.NS") == "TATAMOTORS-CV"
  {
    assert "TMCV.NS" == "TMCV" + ".NS";
    StripSuffix("TMCV");
    MissingChar("TMCV", "ETERNAL", 'E');
    ReplaceAbsent("TMCV", "ETERNAL", "ZOMATO");
    ReplaceWhole("TMCV", "TATAMOTORS-CV");
  }

  /** The symbol is shown as itself without its last three characters. */
  predicate ShownWithoutSuffix(t: string) {
    |t| > 3 && DisplayName(t) == t[..|t| - 3]
  }

  /**
   * A symbol "<base>.NS" whose dot-free base misses a letter `e` of ETERNAL
   * and a letter `m` of TMCV is shown as its base.
   */
  lemma PlainSymbolShown(t: string, base: string, e: char, m: char)
    requires t == base + ".NS" && |base| > 0 && '.' !in base
    requires e in "ETERNAL" && e !in base && m in "TMCV" && m !in base
    ensures ShownWithoutSuffix(t)
  {
    MissingChar(base, "ETERNAL", e);
    MissingChar(base, "TMCV", m);
    PlainSymbolName(base);
    assert t[..|t| - 3] == base;
  }

  // The plain symbols of the universe, row by row as the listing above has them.

  lemma PlainSymbolsRow1(t: string)
    requires t in ["ADANIENT.NS", "ADANIPORTS.NS", "APOLLOHOSP.NS", "ASIANPAINT.NS", "AXISBANK.NS"]
    ensures ShownWithoutSuffix(t)
  {
    if t == "ADANIENT.NS" { PlainSymbolShown(t, "ADANIENT", 'R', 'M'); }
    else if t == "ADANIPORTS.NS" { PlainSymbolShown(t, "ADANIPORTS", 'E', 'M'); }
    else if t == "APOLLOHOSP.NS" { PlainSymbolShown(t, "APOLLOHOSP", 'E', 'T'); }
    else if t == "ASIANPAINT.NS" { PlainSymbolShown(t, "ASIANPAINT", 'E', 'M'); }
    else { PlainSymbolShown(t, "AXISBANK", 'E', 'T'); }
  }

  lemma PlainSymbolsRow2(t: string)
    requires t in ["BAJAJ-AUTO.NS", "BAJFINANCE.NS", "BAJAJFINSV.NS", "BEL.NS", "BPCL.NS"]
    ensures ShownWithoutSuffix(t)
  {
    if t == "BAJAJ-AUTO.NS" { PlainSymbolShown(t, "BAJAJ-AUTO", 'E', 'M'); }
    else if t == "BAJFINANCE.NS" { PlainSymbolShown(t, "BAJFINANCE", 'T', 'T'); }
    else if t == "BAJAJFINSV.NS" { PlainSymbolShown(t, "BAJAJFINSV", 'E', 'T'); }
    else if t == "BEL.NS" { PlainSymbolShown(t, "BEL", 'T', 'T'); }
    else { PlainSymbolShown(t, "BPCL", 'E', 'T'); }
  }

  lemma PlainSymbolsRow3(t: string)
    requires t in ["BHARTIARTL.NS", "BRITANNIA.NS", "CIPLA.NS", "COALINDIA.NS", "DRREDDY.NS"]
    ensures ShownWithoutSuffix(t)
  {
    if t == "BHARTIARTL.NS" { PlainSymbolShown(t, "BHARTIARTL", 'E', 'M'); }
    else if t == "BRITANNIA.NS" { PlainSymbolShown(t, "BRITANNIA", 'E', 'M'); }
    else if t == "CIPLA.NS" { PlainSymbolShown(t, "CIPLA", 'E', 'T'); }
    else if t == "COALINDIA.NS" { PlainSymbolShown(t, "COALINDIA", 'E', 'T'); }
    else { PlainSymbolShown(t, "DRREDDY", 'T', 'T'); }
  }

  lemma PlainSymbolsRow4(t: string)
    requires t in ["EICHERMOT.NS", "GRASIM.NS", "HCLTECH.NS", "HDFCBANK.NS", "HDFCLIFE.NS"]
    ensures ShownWithoutSuffix(t)
  {
    if t == "EICHERMOT.NS" { PlainSymbolShown(t, "EICHERMOT", 'N', 'V'); }
    else if t == "GRASIM.NS" { PlainSymbolShown(t, "GRASIM", 'E', 'T'); }
    else if t == "HCLTECH.NS" { PlainSymbolShown(t, "HCLTECH", 'R', 'M'); }
    else if t == "HDFCBANK.NS" { PlainSymbolShown(t, "HDFCBANK", 'E', 'T'); }
    else { PlainSymbolShown(t, "HDFCLIFE", 'T', 'T'); }
  }

  lemma PlainSymbolsRow5(t: string)
    requires t in ["HEROMOTOCO.NS", "HINDALCO.NS", "HINDUNILVR.NS", "ICICIBANK.NS", "ITC.NS"]
    ensures ShownWithoutSuffix(t)
  {
    if t == "HEROMOTOCO.NS" { PlainSymbolShown(t, "HEROMOTOCO", 'N', 'V'); }
    else if t == "HINDALCO.NS" { PlainSymbolShown(t, "HINDALCO", 'E', 'T'); }
    else if t == "HINDUNILVR.NS" { PlainSymbolShown(t, "HINDUNILVR", 'E', 'T'); }
    else if t == "ICICIBANK.NS" { PlainSymbolShown(t, "ICICIBANK", 'E', 'T'); }
    else { PlainSymbolShown(t, "ITC", 'E', 'M'); }
  }

  lemma PlainSymbolsRow6(t: string)
    requires t in ["INDUSINDBK.NS", "INFY.NS", "JSWSTEEL.NS", "KOTAKBANK.NS", "LT.NS"]
    ensures ShownWithoutSuffix(t)
  {
    if t == "INDUSINDBK.NS" { PlainSymbolShown(t, "INDUSINDBK", 'E', 'T'); }
    else if t == "INFY.NS" { PlainSymbolShown(t, "INFY", 'E', 'T'); }
    else if t == "JSWSTEEL.NS" { PlainSymbolShown(t, "JSWSTEEL", 'R', 'M'); }
    else if t == "KOTAKBANK.NS" { PlainSymbolShown(t, "KOTAKBANK", 'E', 'M'); }
    else { PlainSymbolShown(t, "LT", 'E', 'M'); }
  }

  lemma PlainSymbolsRow7(t: string)
    requires t in ["M&M.NS", "MARUTI.NS", "NESTLEIND.NS", "NTPC.NS", "ONGC.NS"]
    ensures ShownWithoutSuffix(t)
  {
    if t == "M&M.NS" { PlainSymbolShown(t, "M&M", 'E', 'T'); }
    else if t == "MARUTI.NS" { PlainSymbolShown(t, "MARUTI", 'E', 'C'); }
    else if t == "NESTLEIND.NS" { PlainSymbolShown(t, "NESTLEIND", 'R', 'M'); }
    else if t == "NTPC.NS" { PlainSymbolShown(t, "NTPC", 'E', 'M'); }
    else { PlainSymbolShown(t, "ONGC", 'E', 'T'); }
  }

  lemma PlainSymbolsRow8(t: string)
    requires t in ["POWERGRID.NS", "RELIANCE.NS", "SBILIFE.NS", "SBIN.NS", "SUNPHARMA.NS"]
    ensures ShownWithoutSuffix(t)
  {
    if t == "POWERGRID.NS" { PlainSymbolShown(t, "POWERGRID", 'T', 'T'); }
    else if t == "RELIANCE.NS" { PlainSymbolShown(t, "RELIANCE", 'T', 'T'); }
    else if t == "SBILIFE.NS" { PlainSymbolShown(t, "SBILIFE", 'T', 'T'); }
    else if t == "SBIN.NS" { PlainSymbolShown(t, "SBIN", 'E', 'T'); }
    else { PlainSymbolShown(t, "SUNPHARMA", 'E', 'T'); }
  }

  lemma PlainSymbolsRow9(t: string)
    requires t in ["TCS.NS", "TATACONSUM.NS", "TATASTEEL.NS", "TECHM.NS", "TITAN.NS"]
    ensures ShownWithoutSuffix(t)
  {
    if t == "TCS.NS" { PlainSymbolShown(t, "TCS", 'E', 'M'); }
    else if t == "TATACONSUM.NS" { PlainSymbolShown(t, "TATACONSUM", 'E', 'V'); }
    else if t == "TATASTEEL.NS" { PlainSymbolShown(t, "TATASTEEL", 'R', 'M'); }
    else if t == "TECHM.NS" { PlainSymbolShown(t, "TECHM", 'R', 'V'); }
    else { PlainSymbolShown(t, "TITAN", 'E', 'M'); }
  }

  lemma PlainSymbolsRow10(t: string)
    requires t in ["TRENT.NS", "ULTRACEMCO.NS", "UPL.NS", "WIPRO.NS"]
    ensures ShownWithoutSuffix(t)
  {
    if t == "TRENT.NS" { PlainSymbolShown(t, "TRENT", 'A', 'M'); }
    else if t == "ULTRACEMCO.NS" { PlainSymbolShown(t, "ULTRACEMCO", 'N', 'V'); }
    else if t == "UPL.NS" { PlainSymbolShown(t, "UPL", 'E', 'T'); }
    else { PlainSymbolShown(t, "WIPRO", 'E', 'T'); }
  }

  /**
   * The universe has 51 symbols, and every one other than the two renamed
   * ones is shown without its ".NS" suffix.
   */
  lemma UniverseDisplayNames()
    ensures |Universe| == 51
    ensures forall t | t in Universe && t != "ETERNAL.NS" && t != "TMCV.NS" :: ShownWithoutSuffix(t)
  {
    forall t | t in Universe && t != "ETERNAL.NS" && t != "TMCV.NS"
      ensures ShownWithoutSuffix(t)
    {
      if t in ["ADANIENT.NS", "ADANIPORTS.NS", "APOLLOHOSP.NS", "ASIANPAINT.NS", "AXISBANK.NS"] { PlainSymbolsRow1(t); }
      else if t in ["BAJAJ-AUTO.NS", "BAJFINANCE.NS", "BAJAJFINSV.NS", "BEL.NS", "BPCL.NS"] { PlainSymbolsRow2(t); }
      else if t in ["BHARTIARTL.NS", "BRITANNIA.NS", "CIPLA.NS", "COALINDIA.NS", "DRREDDY.NS"] { PlainSymbolsRow3(t); }
      else if t in ["EICHERMOT.NS", "GRASIM.NS", "HCLTECH.NS", "HDFCBANK.NS", "HDFCLIFE.NS"] { PlainSymbolsRow4(t); }
      else if t in ["HEROMOTOCO.NS", "HINDALCO.NS", "HINDUNILVR.NS", "ICICIBANK.NS", "ITC.NS"] { PlainSymbolsRow5(t); }
      else if t in ["INDUSINDBK.NS", "INFY.NS", "JSWSTEEL.NS", "KOTAKBANK.NS", "LT.NS"] { PlainSymbolsRow6(t); }
      else if t in ["M&M.NS", "MARUTI.NS", "NESTLEIND.NS", "NTPC.NS", "ONGC.NS"] { PlainSymbolsRow7(t); }
      else if t in ["POWERGRID.NS", "RELIANCE.NS", "SBILIFE.NS", "SBIN.NS", "SUNPHARMA.NS"] { PlainSymbolsRow8(t); }
      else if t in ["TCS.NS", "TATACONSUM.NS", "TATASTEEL.NS", "TECHM.NS", "TITAN.NS"] { PlainSymbolsRow9(t); }
      else { PlainSymbolsRow10(t); }
    }
  }
}
