/** Sharing a ticket over WhatsApp: the phone number is normalised to digits with the
    Argentine country code 54, and the ticket's items become bullet lines of the message. */
module WhatsAppSharing {
  import opened Seqs
  import opened Text

  const CountryCode := "54"

  /** The phone as the link carries it: its digits, with "54" put in front unless they already
      start with it. */
  function NormalizePhone(phone: string): (r: string)
  {
    var digits := DigitsOnly(phone);
    if StartsWith(digits, CountryCode) then digits else CountryCode + digits
  }

  /** The result is digits only and starts with the country code; the digits of the input are
      kept, in order, after a possible added prefix. */
  lemma {:induction false} NormalizePhoneShape(phone: string)
    ensures AllDigits(NormalizePhone(phone)) && StartsWith(NormalizePhone(phone), CountryCode)
    ensures NormalizePhone(phone) == DigitsOnly(phone) || NormalizePhone(phone) == CountryCode + DigitsOnly(phone)
    ensures StartsWith(DigitsOnly(phone), CountryCode) ==> NormalizePhone(phone) == DigitsOnly(phone)
  {
    DigitsOnlyProperties(phone);
    var d := DigitsOnly(phone);
    if !StartsWith(d, CountryCode) {
      assert (CountryCode + d)[..2] == CountryCode;
    }
  }

  /** Normalising a normalised phone changes nothing. */
  lemma {:induction false} NormalizePhoneIdempotent(phone: string)
    ensures NormalizePhone(NormalizePhone(phone)) == NormalizePhone(phone)
  {
    var n := NormalizePhone(phone);
    NormalizePhoneShape(phone);
    DigitsOnlyProperties(n);
  }

  /** `items.map(item => `• ${item}`).join('\n')`. */
  function FormatItems(items: seq<string>): string
  {
    if items == [] then ""
    else if |items| == 1 then Bullet(items[0])
    else FormatItems(items[..|items| - 1]) + "\n" + Bullet(items[|items| - 1])
  }

  function Bullet(item: string): string
  {
    "• " + item
  }

  function CountChar(s: string, c: char): nat
  {
    if s == [] then 0 else CountChar(s[..|s| - 1], c) + (if s[|s| - 1] == c then 1 else 0)
  }

  lemma {:induction false} CountCharAppend(s: string, t: string, c: char)
    ensures CountChar(s + t, c) == CountChar(s, c) + CountChar(t, c)
    decreases |t|
  {
    if t == [] {
      assert s + t == s;
    } else {
      CountCharAppend(s, t[..|t| - 1], c);
      assert (s + t)[..|s + t| - 1] == s + t[..|t| - 1];
    }
  }

  /** With items that are themselves single lines, the text has one line per item: it starts
      with the first bullet and holds exactly one line break fewer than there are items. */
  lemma {:induction false} FormatItemsLines(items: seq<string>)
    requires forall i :: 0 <= i < |items| ==> CountChar(items[i], '\n') == 0
    ensures items == [] ==> FormatItems(items) == ""
    ensures items != [] ==> CountChar(FormatItems(items), '\n') == |items| - 1
    ensures items != [] ==> StartsWith(FormatItems(items), Bullet(items[0]))
    decreases |items|
  {
    if |items| == 1 {
      assert FormatItems(items)[..|Bullet(items[0])|] == Bullet(items[0]);
      CountCharAppend("• ", items[0], '\n');
      assert CountChar("• ", '\n') == 0 by {
        assert "• "[..1] == "•" && "•"[..0] == "";
      }
    } else if |items| > 1 {
      var init, last := items[..|items| - 1], items[|items| - 1];
      FormatItemsLines(init);
      var a := FormatItems(init);
      assert init[0] == items[0];
      assert FormatItems(items) == a + ("\n" + Bullet(last));
      CountCharAppend(a, "\n" + Bullet(last), '\n');
      CountCharAppend("\n", Bullet(last), '\n');
      CountCharAppend("• ", last, '\n');
      assert CountChar("• ", '\n') == 0 by {
        assert "• "[..1] == "•" && "•"[..0] == "";
      }
      assert CountChar("\n", '\n') == 1 by { assert "\n"[..0] == ""; }
      assert StartsWith(FormatItems(items), Bullet(items[0])) by {
        assert FormatItems(items)[..|Bullet(items[0])|] == a[..|Bullet(items[0])|];
      }
    }
  }

  /** The bullet lines, one per item, in the items' order. */
  function Bullets(items: seq<string>): (r: seq<string>)
    ensures |r| == |items| && forall i :: 0 <= i < |items| ==> r[i] == Bullet(items[i])
  {
    seq(|items|, i requires 0 <= i < |items| => Bullet(items[i]))
  }

  /** `lines.join('\n')`, read from the front: the first line, then a break and the rest. */
  function JoinLines(lines: seq<string>): string
  {
    if lines == [] then ""
    else if |lines| == 1 then lines[0]
    else lines[0] + "\n" + JoinLines(lines[1..])
  }

  lemma {:induction false} JoinLinesSnoc(lines: seq<string>, x: string)
    requires lines != []
    ensures JoinLines(lines + [x]) == JoinLines(lines) + "\n" + x
    decreases |lines|
  {
    if |lines| > 1 {
      JoinLinesSnoc(lines[1..], x);
      assert (lines + [x])[1..] == lines[1..] + [x];
    } else {
      assert (lines + [x])[1..] == [x];
    }
  }

  /** The text is the items' bullet lines, in order, joined by line breaks. */
  lemma {:induction false} FormatItemsInOrder(items: seq<string>)
    ensures FormatItems(items) == JoinLines(Bullets(items))
    decreases |items|
  {
    if |items| > 1 {
      var init := items[..|items| - 1];
      FormatItemsInOrder(init);
      assert Bullets(items) == Bullets(init) + [Bullet(items[|items| - 1])];
      JoinLinesSnoc(Bullets(init), Bullet(items[|items| - 1]));
    }
  }

  const UrlPrefix := "https://api.whatsapp.com/send?phone="

  /** The link opened: the phone parameter is the normalised phone, the text parameter the
      URL-encoded message. */
  function WhatsAppUrl(phone: string, encodedMessage: string): string
  {
    UrlPrefix + NormalizePhone(phone) + ("&text=" + encodedMessage)
  }

  /** The phone parameter of the link is exactly the normalised phone. */
  lemma {:induction false} UrlCarriesPhone(phone: string, encodedMessage: string)
    ensures StartsWith(WhatsAppUrl(phone, encodedMessage), UrlPrefix)
    ensures WhatsAppUrl(phone, encodedMessage)[|UrlPrefix|..|UrlPrefix| + |NormalizePhone(phone)|] == NormalizePhone(phone)
    ensures WhatsAppUrl(phone, encodedMessage)[|UrlPrefix| + |NormalizePhone(phone)|..] == "&text=" + encodedMessage
  {
    ConcatParts(UrlPrefix, NormalizePhone(phone), "&text=" + encodedMessage);
  }

  lemma {:induction false} ConcatParts(a: string, b: string, c: string)
    ensures (a + b + c)[..|a|] == a
    ensures (a + b + c)[|a|..|a| + |b|] == b
    ensures (a + b + c)[|a| + |b|..] == c
  {
  }
}
