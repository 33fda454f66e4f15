/** The tile builder: every country becomes a country button and a capital
    button, and a relation pairs each button with its partner. Buttons are
    objects and the relation is keyed by object identity, so two buttons with
    the same code and name are still two different keys. */
module Buttons {
  import opened Countries
  import Lodash

  /** Appended to a country's code to give its capital button's code. */
  const CapitalSuffix: string := "_capital"

  /** The code of the capital button of a country with code `code`: it
      begins with the country code and is never equal to it. */
  function CapitalCode(code: string): (r: string)
    ensures |r| == |code| + |CapitalSuffix|
    ensures r[..|code|] == code && r[|code|..] == CapitalSuffix
    ensures r != code
  {
    code + CapitalSuffix
  }

  /** One quiz tile. The source never changes a button after creating it, so
      its fields are constants; what matters is its identity. A capital
      button's name is undefined when its country's capital is. */
  class ButtonData {
    const code: string
    const name: Text

    constructor (code: string, name: Text)
      ensures this.code == code && this.name == name
    {
      this.code := code;
      this.name := name;
    }
  }

  predicate IsCountryButton(b: ButtonData, country: Country) {
    b.code == country.code && b.name == Str(country.name)
  }

  predicate IsCapitalButton(b: ButtonData, country: Country) {
    b.code == CapitalCode(country.code) && b.name == country.capital
  }

  /** No button occurs twice in `s`. */
  predicate Distinct(s: seq<ButtonData>) {
    forall i, j :: 0 <= i < j < |s| ==> s[i] != s[j]
  }

  /** `buttons` is the builder's list before shuffling: positions 2k and
      2k+1 hold the country and the capital button of `countries[k]`. */
  predicate Laid(buttons: seq<ButtonData>, countries: seq<Country>) {
    && |buttons| == 2 * |countries|
    && forall k :: 0 <= k < |countries| ==>
         IsCountryButton(buttons[2 * k], countries[k]) && IsCapitalButton(buttons[2 * k + 1], countries[k])
  }

  /** The position of the button paired with position `i` in a laid-out list. */
  function Partner(i: nat): nat {
    if i % 2 == 0 then i + 1 else i - 1
  }

  /** The relation the builder records for a laid-out list: each consecutive
      pair, in both directions, added in list order. */
  function Pairing(buttons: seq<ButtonData>): map<ButtonData, ButtonData>
    requires |buttons| % 2 == 0
    decreases |buttons|
  {
    if buttons == [] then map[]
    else
      var n := |buttons|;
      Pairing(buttons[..n - 2])[buttons[n - 2] := buttons[n - 1]][buttons[n - 1] := buttons[n - 2]]
  }

  /** The relation is defined on exactly the buttons of the list. */
  lemma {:induction false} PairingKeys(buttons: seq<ButtonData>)
    requires |buttons| % 2 == 0
    ensures Pairing(buttons).Keys == set b | b in buttons
    decreases |buttons|
  {
    if buttons != [] {
      var n := |buttons|;
      PairingKeys(buttons[..n - 2]);
      assert buttons == buttons[..n - 2] + [buttons[n - 2], buttons[n - 1]];
    }
  }

  /** Each button of a list without repetitions is related to the button at
      its partner position. */
  lemma {:induction false} PairingAt(buttons: seq<ButtonData>, i: nat)
    requires |buttons| % 2 == 0 && Distinct(buttons) && i < |buttons|
    ensures Partner(i) < |buttons|
    ensures buttons[i] in Pairing(buttons) && Pairing(buttons)[buttons[i]] == buttons[Partner(i)]
    decreases |buttons|
  {
    var n := |buttons|;
    if i < n - 2 {
      var prefix := buttons[..n - 2];
      PairingAt(prefix, i);
      assert buttons[i] != buttons[n - 2] && buttons[i] != buttons[n - 1];
    } else if i == n - 2 {
      assert buttons[n - 2] != buttons[n - 1];
    }
  }

  /** The relation of a list without repetitions is an involution without
      fixed points: it pairs every button with a different button, and that
      button with the first one again. */
  lemma PairingIsInvolution(buttons: seq<ButtonData>)
    requires |buttons| % 2 == 0 && Distinct(buttons)
    ensures forall b :: b in Pairing(buttons) ==>
      var p := Pairing(buttons)[b]; p in Pairing(buttons) && Pairing(buttons)[p] == b && p != b
  {
    var r := Pairing(buttons);
    forall b | b in r
      ensures r[b] in r && r[r[b]] == b && r[b] != b
    {
      PairingKeys(buttons);
      assert b in buttons;
      var i :| 0 <= i < |buttons| && buttons[i] == b;
      PairingAt(buttons, i);
      PairingAt(buttons, Partner(i));
      assert Partner(Partner(i)) == i;
    }
  }

  /** Within a laid-out list, every pair joins a country button and the
      capital button of the same country, in both directions. */
  lemma PairingJoinsCountryAndCapital(buttons: seq<ButtonData>, countries: seq<Country>)
    requires Laid(buttons, countries) && Distinct(buttons)
    ensures forall k :: 0 <= k < |countries| ==>
      && buttons[2 * k] in Pairing(buttons) && Pairing(buttons)[buttons[2 * k]] == buttons[2 * k + 1]
      && buttons[2 * k + 1] in Pairing(buttons) && Pairing(buttons)[buttons[2 * k + 1]] == buttons[2 * k]
    ensures forall b :: b in Pairing(buttons) ==>
      var p := Pairing(buttons)[b]; p.code == CapitalCode(b.code) || b.code == CapitalCode(p.code)
  {
    var r := Pairing(buttons);
    forall k | 0 <= k < |countries|
      ensures buttons[2 * k] in r && r[buttons[2 * k]] == buttons[2 * k + 1]
      ensures buttons[2 * k + 1] in r && r[buttons[2 * k + 1]] == buttons[2 * k]
    {
      PairingAt(buttons, 2 * k);
      PairingAt(buttons, 2 * k + 1);
    }
    forall b | b in r
      ensures r[b].code == CapitalCode(b.code) || b.code == CapitalCode(r[b].code)
    {
      PairingKeys(buttons);
      assert b in buttons;
      var i :| 0 <= i < |buttons| && buttons[i] == b;
      PairingAt(buttons, i);
      var k := i / 2;
      assert IsCountryButton(buttons[2 * k], countries[k]) && IsCapitalButton(buttons[2 * k + 1], countries[k]);
    }
  }

  /** A list has no repetitions exactly when no element occurs in it more
      than once; so a reordering of a list without repetitions has none. */
  lemma {:induction false} DistinctCounts(s: seq<ButtonData>)
    ensures Distinct(s) <==> forall b :: multiset(s)[b] <= 1
  {
    if s != [] {
      DistinctCounts(s[1..]);
      assert s == [s[0]] + s[1..];
      assert multiset(s) == multiset{s[0]} + multiset(s[1..]);
      if Distinct(s) {
        forall j | 0 <= j < |s[1..]| ensures s[1..][j] != s[0] {
          assert s[1..][j] == s[j + 1];
        }
        assert Distinct(s[1..]) by {
          forall i, j | 0 <= i < j < |s[1..]| ensures s[1..][i] != s[1..][j] {
            assert s[1..][i] == s[i + 1] && s[1..][j] == s[j + 1];
          }
        }
      } else {
        var i, j :| 0 <= i < j < |s| && s[i] == s[j];
        if i == 0 {
          assert s[j] in s[1..];
          assert multiset(s)[s[0]] >= 2;
        } else {
          assert !Distinct(s[1..]) by {
            assert s[1..][i - 1] == s[i] && s[1..][j - 1] == s[j];
          }
          var b :| multiset(s[1..])[b] > 1;
          assert multiset(s)[b] >= multiset(s[1..])[b];
        }
      }
    }
  }

  /** The two buttons of one country: a country button carrying the
      country's code and name, and a capital button carrying the derived
      capital code and the capital's name. Both are new objects. */
  method CreateCountryAndCapitalBtn(country: Country) returns (countryBtn: ButtonData, capitalBtn: ButtonData)
    ensures fresh(countryBtn) && fresh(capitalBtn)
    ensures IsCountryButton(countryBtn, country) && IsCapitalButton(capitalBtn, country)
    ensures countryBtn != capitalBtn && countryBtn.code != capitalBtn.code
  {
    countryBtn := new ButtonData(country.code, Str(country.name));
    capitalBtn := new ButtonData(CapitalCode(country.code), country.capital);
  }

  /** Builds the buttons of all countries and the relation between them,
      then shuffles the buttons. `unshuffled` is the list as built, before
      the shuffle: the relation is read off it, and `buttons` is some
      reordering of it. */
  method PrepareButtonsAndRelations(countries: seq<Country>)
    returns (buttons: seq<ButtonData>, relations: map<ButtonData, ButtonData>, ghost unshuffled: seq<ButtonData>)
    ensures Laid(unshuffled, countries) && Distinct(unshuffled)
    ensures forall b :: b in unshuffled ==> fresh(b)
    ensures relations == Pairing(unshuffled)
    ensures multiset(buttons) == multiset(unshuffled)
    ensures |buttons| == 2 * |countries| && Distinct(buttons)
    ensures relations.Keys == set b | b in buttons
    ensures forall b :: b in relations ==>
      var p := relations[b]; p in buttons && relations[p] == b && p != b
    ensures forall b :: b in relations ==>
      var p := relations[b]; p.code == CapitalCode(b.code) || b.code == CapitalCode(p.code)
  {
    var built: seq<ButtonData> := [];
    relations := map[];
    for i := 0 to |countries|
      invariant Laid(built, countries[..i]) && Distinct(built)
      invariant forall b :: b in built ==> fresh(b)
      invariant relations == Pairing(built)
    {
      var countryBtn, capitalBtn := CreateCountryAndCapitalBtn(countries[i]);
      var before := built;
      built := built + [countryBtn];
      built := built + [capitalBtn];
      relations := relations[countryBtn := capitalBtn];
      relations := relations[capitalBtn := countryBtn];
      assert built[..|built| - 2] == before;
    }
    assert countries[..|countries|] == countries;
    unshuffled := built;
    buttons := Lodash.Shuffle(built);

    DistinctCounts(built);
    DistinctCounts(buttons);
    PairingKeys(built);
    PairingIsInvolution(built);
    PairingJoinsCountryAndCapital(built, countries);
    assert forall b :: b in buttons <==> b in built by {
      forall b ensures b in buttons <==> b in built {
        assert b in buttons <==> b in multiset(buttons);
        assert b in built <==> b in multiset(built);
      }
    }
    forall b | b in relations ensures relations[b] in buttons {
      assert relations[b] in relations;
      assert relations[b] in built;
    }
  }

  /** The three-country example of the builder's tests, checked against the
      contract alone: six buttons, and each country button related to its own
      capital button. */
  method ThreeCountriesExample() {
    var usa := Country("USA", "United States", Str("Washington, D.C."));
    var can := Country("CAN", "Canada", Str("Ottawa"));
    var mex := Country("MEX", "Mexico", Str("Mexico City"));
    var countries := [usa, can, mex];
    var buttons, relations, unshuffled := PrepareButtonsAndRelations(countries);
    assert |buttons| == 6;
    PairingJoinsCountryAndCapital(unshuffled, countries);
    var usaBtn, usaCapitalBtn := unshuffled[0], unshuffled[1];
    assert IsCountryButton(usaBtn, countries[0]) && IsCapitalButton(usaCapitalBtn, countries[0]);
    assert usaBtn in relations && usaCapitalBtn in relations;
    assert usaBtn in buttons && usaCapitalBtn in buttons;
    assert usaBtn.code == "USA" && usaCapitalBtn.code == "USA_capital" && usaCapitalBtn.name == Str("Washington, D.C.");
    assert relations[usaBtn] == usaCapitalBtn && relations[usaCapitalBtn] == usaBtn;
  }

}
