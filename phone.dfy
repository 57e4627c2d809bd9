/** The subscriber-number normalisation both mobile-money clients apply before calling their
    gateway: a leading '0' becomes the Kenyan country code 254, and a number without the
    country code gets it prepended. */
module PhoneNumbers {
  import opened Common

  function Normalize(phone: string): (r: string)
    ensures StartsWith(r, "254")
    ensures StartsWith(phone, "0") ==> r == "254" + phone[1..]
    ensures !StartsWith(phone, "0") && StartsWith(phone, "254") ==> r == phone
    ensures !StartsWith(phone, "0") && !StartsWith(phone, "254") ==> r == "254" + phone
  {
    if StartsWith(phone, "0") then "254" + phone[1..]
    else if !StartsWith(phone, "254") then "254" + phone
    else phone
  }

  /** Normalising an already normalised number changes nothing. */
  lemma NormalizeIdempotent(phone: string)
    ensures Normalize(Normalize(phone)) == Normalize(phone)
  {
    var r := Normalize(phone);
    assert r[0] == '2';
    assert !StartsWith(r, "0");
  }

  /** The local part of the number is kept: what follows the country code is the number
      without its trunk '0', or the number itself when it had no prefix at all. */
  lemma NormalizeKeepsSubscriber(phone: string)
    ensures StartsWith(phone, "0") ==> Normalize(phone)[3..] == phone[1..]
    ensures !StartsWith(phone, "0") && !StartsWith(phone, "254") ==> Normalize(phone)[3..] == phone
    ensures StartsWith(phone, "254") ==> Normalize(phone) == phone
  {
    if StartsWith(phone, "254") {
      assert phone[0] == '2';
      assert !StartsWith(phone, "0");
    }
  }
}
