/** The navigation bar's display form of the connected wallet address. */
module Navigation {
  import opened Results

  /** `formatWalletAddress`: an address longer than ten characters is shortened to its first
      four characters, "..", and its last three; a shorter one is shown as it is; a missing
      or empty address shows as the empty string. */
  function FormatWalletAddress(address: Option<string>): (r: string)
    ensures address.None? || address.value == [] ==> r == []
    ensures address.Some? && 0 < |address.value| <= 10 ==> r == address.value
    ensures address.Some? && |address.value| > 10 ==>
      && |r| == 9 < |address.value|
      && r[..4] == address.value[..4] && r[4..6] == ".." && r[6..] == address.value[|address.value| - 3..]
  {
    match address
    case Some(a) =>
      if |a| > 10 then a[..4] + ".." + a[|a| - 3..]
      else a
    case None => ""
  }

  /** Every displayed address fits in ten characters, so formatting it again changes nothing. */
  lemma FormatIsIdempotent(address: Option<string>)
    ensures |FormatWalletAddress(address)| <= 10
    ensures FormatWalletAddress(Some(FormatWalletAddress(address))) == FormatWalletAddress(address)
  {
  }

  /** A checksummed Ethereum address, shortened. */
  lemma FormatExample()
    ensures FormatWalletAddress(Some("0x5aAeb6053F3E94C9b9A09f33669435E7Ef1BeAed")) == "0x5a..Aed"
  {
    var a := "0x5aAeb6053F3E94C9b9A09f33669435E7Ef1BeAed";
    assert |a| == 42;
    assert a[0] == '0' && a[1] == 'x' && a[2] == '5' && a[3] == 'a';
    assert a[..4] == "0x5a";
    assert a[39] == 'A' && a[40] == 'e' && a[41] == 'd';
    assert a[39..] == "Aed";
  }
}
