/**
 * The renderings of the particular numbers the token tables hold. Each lemma
 * evaluates one rendering, which keeps every evaluation small; the general
 * facts about rendering and parsing are in JsNumber.
 */
module Literals {
  import opened JsNumber

  lemma Px0()
    ensures Px(Int(0)) == "0px"
  {}

  lemma Px4()
    ensures Px(Int(4)) == "4px"
  {}

  lemma Px6()
    ensures Px(Int(6)) == "6px"
  {}

  lemma Px8()
    ensures Px(Int(8)) == "8px"
  {}

  lemma Px12()
    ensures Px(Int(12)) == "12px"
  {}

  lemma Px14()
    ensures Px(Int(14)) == "14px"
  {}

  lemma Px16()
    ensures Px(Int(16)) == "16px"
  {}

  lemma Px18()
    ensures Px(Int(18)) == "18px"
  {}

  lemma Px20()
    ensures Px(Int(20)) == "20px"
  {}

  lemma Px24()
    ensures Px(Int(24)) == "24px"
  {}

  lemma Px28()
    ensures Px(Int(28)) == "28px"
  {}

  lemma Px30()
    ensures Px(Int(30)) == "30px"
  {}

  lemma Px32()
    ensures Px(Int(32)) == "32px"
  {}

  lemma Px36()
    ensures Px(Int(36)) == "36px"
  {}

  lemma Px40()
    ensures Px(Int(40)) == "40px"
  {}

  lemma Px48()
    ensures Px(Int(48)) == "48px"
  {}

  lemma Px56()
    ensures Px(Int(56)) == "56px"
  {}

  lemma Px64()
    ensures Px(Int(64)) == "64px"
  {}

  lemma Px80()
    ensures Px(Int(80)) == "80px"
  {}

  lemma Px96()
    ensures Px(Int(96)) == "96px"
  {}

  lemma Px128()
    ensures Px(Int(128)) == "128px"
  {
    assert NatToString(12) == "12";
  }

  lemma Px160()
    ensures Px(Int(160)) == "160px"
  {
    assert NatToString(16) == "16";
  }

  lemma Px192()
    ensures Px(Int(192)) == "192px"
  {
    assert NatToString(19) == "19";
  }

  lemma Px224()
    ensures Px(Int(224)) == "224px"
  {
    assert NatToString(22) == "22";
  }

  lemma Px256()
    ensures Px(Int(256)) == "256px"
  {
    assert NatToString(25) == "25";
  }

  lemma Px640()
    ensures Px(Int(640)) == "640px"
  {
    assert NatToString(64) == "64";
  }

  lemma Px768()
    ensures Px(Int(768)) == "768px"
  {
    assert NatToString(76) == "76";
  }

  lemma Px1024()
    ensures Px(Int(1024)) == "1024px"
  {
    assert NatToString(102) == "102";
  }

  lemma Px1280()
    ensures Px(Int(1280)) == "1280px"
  {
    assert NatToString(128) == "128";
  }

  lemma Px1536()
    ensures Px(Int(1536)) == "1536px"
  {
    assert NatToString(153) == "153";
  }

  lemma Decimal400()
    ensures IntToString(400) == "400"
  {
    assert NatToString(40) == "40";
  }

  lemma Decimal500()
    ensures IntToString(500) == "500"
  {
    assert NatToString(50) == "50";
  }

  lemma Decimal600()
    ensures IntToString(600) == "600"
  {
    assert NatToString(60) == "60";
  }

  lemma Decimal700()
    ensures IntToString(700) == "700"
  {
    assert NatToString(70) == "70";
  }

  lemma Decimal900()
    ensures IntToString(900) == "900"
  {
    assert NatToString(90) == "90";
  }

}
