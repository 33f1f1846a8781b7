/** The configured report recipients and the conversion of a phone number
    into a WhatsApp JID (config/destinatarios.js). */
module Destinatarios {
  import opened Comum

  /** Suffix of the JID of a direct (one-to-one) chat. */
  const DirectSuffix: string := "@s.whatsapp.net"

  /** DESTINATARIOS_RELATORIOS: country code 55, area code 11, then the number. */
  const DestinatariosRelatorios: seq<string> := ["5511952722428"]

  /** `numero.replace(/\D/g, '')`: every character that is not a decimal
      digit removed, the digits kept in their order. */
  function SoDigitos(s: string): (r: string)
    ensures AllDigits(r)
    ensures |r| <= |s|
  {
    if s == [] then [] else (if IsDigit(s[0]) then [s[0]] else []) + SoDigitos(s[1..])
  }

  lemma {:induction false} SoDigitosConcat(a: string, b: string)
    ensures SoDigitos(a + b) == SoDigitos(a) + SoDigitos(b)
  {
    if a != [] {
      assert (a + b)[0] == a[0];
      assert (a + b)[1..] == a[1..] + b;
      SoDigitosConcat(a[1..], b);
    } else {
      assert a + b == b;
    }
  }

  predicate NoDigits(s: string) {
    forall i | 0 <= i < |s| :: !IsDigit(s[i])
  }

  /** A string without digits is removed entirely. */
  lemma {:induction false} SoDigitosNoDigits(s: string)
    requires NoDigits(s)
    ensures SoDigitos(s) == []
  {
    if s != [] {
      SoDigitosNoDigits(s[1..]);
    }
  }

  /** A string made only of digits is left as it is, and only such a string. */
  lemma {:induction false} SoDigitosFixpoint(s: string)
    ensures SoDigitos(s) == s <==> AllDigits(s)
  {
    if s != [] {
      SoDigitosFixpoint(s[1..]);
      if !IsDigit(s[0]) {
        assert |SoDigitos(s)| < |s|;
      }
    }
  }

  /** What is removed is exactly the non-digits: each digit keeps its number
      of occurrences, every other character disappears. */
  lemma {:induction false} SoDigitosOccurrences(s: string, c: char)
    ensures multiset(SoDigitos(s))[c] == if IsDigit(c) then multiset(s)[c] else 0
  {
    if s != [] {
      SoDigitosOccurrences(s[1..], c);
      assert s == [s[0]] + s[1..];
      assert multiset(s) == multiset([s[0]]) + multiset(s[1..]);
    }
  }

  /** Digits followed by a digit-free tail reduce to the digits. */
  lemma SoDigitosDigitsThenRest(d: string, t: string)
    requires AllDigits(d) && NoDigits(t)
    ensures SoDigitos(d + t) == d
  {
    SoDigitosConcat(d, t);
    SoDigitosFixpoint(d);
    SoDigitosNoDigits(t);
  }

  lemma DirectSuffixNoDigits()
    ensures NoDigits(DirectSuffix)
  {
  }

  /** The suffix opens with the only `@` it holds. */
  lemma DirectSuffixOneAt()
    ensures DirectSuffix[0] == '@' && '@' !in DirectSuffix[1..]
  {
  }

  /** `formatarJID` exactly as written: the `@` test runs on the string
      whose non-digits, `@` among them, were already removed. */
  function FormatarJIDAsWritten(numero: Option<string>): (r: Option<string>)
    ensures r.None? <==> !Truthy(numero)
    ensures r.Some? ==> r.value == SoDigitos(numero.value) + DirectSuffix
  {
    if !Truthy(numero) then None
    else
      var limpo := SoDigitos(numero.value);
      if '@' in limpo then Some(limpo) else Some(limpo + DirectSuffix)
  }

  /** Everything before the `@` of an as-written result is a digit, and the
      result has exactly one `@`, where the suffix begins. */
  lemma FormatarJIDAsWrittenShape(numero: Option<string>)
    requires Truthy(numero)
    ensures var r := FormatarJIDAsWritten(numero).value;
      var k := |r| - |DirectSuffix|;
      && 0 <= k && AllDigits(r[..k]) && r[k..] == DirectSuffix
      && r[k] == '@' && '@' !in r[..k] && '@' !in r[k + 1..]
  {
    var d := SoDigitos(numero.value);
    var r := d + DirectSuffix;
    assert FormatarJIDAsWritten(numero).value == r;
    assert r[..|d|] == d && r[|d|..] == DirectSuffix;
    DirectSuffixOneAt();
    assert r[|d| + 1..] == DirectSuffix[1..];
  }

  /** The as-written function drops a group address's dash and domain: a
      group id `<digits>-<digits>@g.us` becomes a direct-chat JID. */
  lemma FormatarJIDAsWrittenDropsGroup(creator: string, stamp: string, domain: string)
    requires AllDigits(creator) && AllDigits(stamp) && NoDigits(domain)
    ensures FormatarJIDAsWritten(Some(creator + "-" + stamp + domain))
         == Some(creator + stamp + DirectSuffix)
  {
    var id := creator + "-" + stamp + domain;
    assert id == creator + ("-" + (stamp + domain));
    assert Truthy(Some(id)) by {
      assert |id| > 0;
    }
    SoDigitosConcat(creator, "-" + (stamp + domain));
    SoDigitosConcat("-", stamp + domain);
    SoDigitosNoDigits("-");
    SoDigitosDigitsThenRest(stamp, domain);
    SoDigitosFixpoint(creator);
    assert SoDigitos(id) == creator + stamp;
  }

  /** A concrete group id that reaches the dead branch's intended case. */
  lemma FormatarJIDAsWrittenGroupExample()
    ensures FormatarJIDAsWritten(Some("123-456@g.us")) == Some("123456@s.whatsapp.net")
  {
    GroupExampleParts();
    FormatarJIDAsWrittenDropsGroup("123", "456", "@g.us");
    GroupExampleText();
  }

  lemma GroupExampleParts()
    ensures AllDigits("123") && AllDigits("456") && NoDigits("@g.us")
  {
  }

  lemma GroupExampleText()
    ensures "123" + "-" + "456" + "@g.us" == "123-456@g.us"
    ensures "123" + "456" + DirectSuffix == "123456@s.whatsapp.net"
  {
  }

  /** The as-written function is idempotent on its results. */
  lemma FormatarJIDAsWrittenIdempotent(numero: Option<string>)
    requires Truthy(numero)
    ensures FormatarJIDAsWritten(FormatarJIDAsWritten(numero)) == FormatarJIDAsWritten(numero)
  {
    var d := SoDigitos(numero.value);
    DirectSuffixNoDigits();
    SoDigitosDigitsThenRest(d, DirectSuffix);
  }

  /** `formatarJID` as its own comment describes it: an identifier that
      already holds `@` is returned as it is; other identifiers keep their
      digits and get the direct-chat suffix. */
  function FormatarJID(numero: Option<string>): (r: Option<string>)
    ensures r.None? <==> !Truthy(numero)
    ensures Truthy(numero) && '@' in numero.value ==> r == numero
    ensures r.Some? ==> '@' in r.value
  {
    if !Truthy(numero) then None
    else if '@' in numero.value then numero
    else Some(SoDigitos(numero.value) + DirectSuffix)
  }

  /** On identifiers without `@` the corrected function and the code as
      written agree. */
  lemma FormatarJIDAgreesWithoutAt(numero: Option<string>)
    requires numero.Some? ==> '@' !in numero.value
    ensures FormatarJID(numero) == FormatarJIDAsWritten(numero)
  {
  }

  /** The corrected function is idempotent on every input. */
  lemma FormatarJIDIdempotent(numero: Option<string>)
    ensures FormatarJID(FormatarJID(numero)) == FormatarJID(numero)
  {
    if Truthy(numero) {
      assert FormatarJID(numero).value != "";
      assert '@' in FormatarJID(numero).value;
    }
  }

  /** A plain phone number becomes that number followed by the direct-chat
      suffix, whichever of the two functions is used. */
  lemma FormatarJIDOfNumber(n: string)
    requires n != [] && AllDigits(n)
    ensures FormatarJID(Some(n)) == FormatarJIDAsWritten(Some(n)) == Some(n + DirectSuffix)
  {
    SoDigitosFixpoint(n);
  }

  lemma ConfiguredRecipientsAreNumbers()
    ensures |DestinatariosRelatorios| == 1
    ensures forall i | 0 <= i < |DestinatariosRelatorios| ::
      DestinatariosRelatorios[i] != [] && AllDigits(DestinatariosRelatorios[i])
  {
  }

  /** The configured recipient becomes its direct-chat JID,
      `5511952722428@s.whatsapp.net`. */
  lemma ConfiguredRecipient()
    ensures |DestinatariosRelatorios| == 1
    ensures FormatarJID(Some(DestinatariosRelatorios[0])) == Some(DestinatariosRelatorios[0] + DirectSuffix)
    ensures DestinatariosRelatorios[0] + DirectSuffix == "5511952722428@s.whatsapp.net"
  {
    ConfiguredJidText();
    ConfiguredRecipientsAreNumbers();
    FormatarJIDOfNumber(DestinatariosRelatorios[0]);
  }

  lemma ConfiguredJidText()
    ensures DestinatariosRelatorios[0] + DirectSuffix == "5511952722428@s.whatsapp.net"
  {
  }

  /** No configured recipient holds `@`, so for the whole list the corrected
      function gives what the code as written gives. */
  lemma ConfiguredRecipientsAgree()
    ensures forall i | 0 <= i < |DestinatariosRelatorios| ::
      FormatarJID(Some(DestinatariosRelatorios[i])) == FormatarJIDAsWritten(Some(DestinatariosRelatorios[i]))
  {
    ConfiguredRecipientsAreNumbers();
    forall i | 0 <= i < |DestinatariosRelatorios|
      ensures FormatarJID(Some(DestinatariosRelatorios[i])) == FormatarJIDAsWritten(Some(DestinatariosRelatorios[i]))
    {
      FormatarJIDOfNumber(DestinatariosRelatorios[i]);
    }
  }
}
