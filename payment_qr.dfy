/** The payment dialog (Frontend/src/components/PaymentQR.jsx): a two-minute
    countdown shown as MM:SS, one automatic trip home when it runs out, the
    close button, and the fallback picture for a QR code that fails to
    load. Each run of the countdown effect after its one-second timer is
    one call of `Tick`; navigation and the parent's `onClose` are returned
    as effects. */
module PaymentQr {
  import opened Common

  const CountdownStart: nat := 120
  const QrImage: string := "/paymentQr.jpeg"
  const FallbackQr: string := "/payment-qr-code.jpeg"

  /** `s.padStart(2, '0')`. */
  function Pad2(s: string): (r: string)
    ensures |s| >= 2 ==> r == s
    ensures |s| < 2 ==> |r| == 2 && r[2 - |s|..] == s && forall i :: 0 <= i < 2 - |s| ==> r[i] == '0'
  {
    if |s| >= 2 then s else if |s| == 1 then "0" + s else "00"
  }

  /** `formatTime`: minutes and seconds, each at least two digits. */
  function FormatTime(seconds: nat): (r: string)
    ensures |r| >= 5 && r[|r| - 3] == ':' && AllDigits(r[|r| - 2..])
  {
    TwoDigits(seconds % 60);
    Pad2(NatToString(seconds / 60)) + ":" + Pad2(NatToString(seconds % 60))
  }

  /** Below a hundred, the padded decimal form has two digits and reads
      back as the number. */
  lemma TwoDigits(n: nat)
    requires n < 100
    ensures |Pad2(NatToString(n))| == 2 && AllDigits(Pad2(NatToString(n)))
    ensures DigitsValue(Pad2(NatToString(n))) == n
  {
    var r := Pad2(NatToString(n));
    if n < 10 {
      assert r == "0" + [DigitChar(n)];
      assert r[..1] == "0" && r[..1][..0] == "";
      assert DigitsValue(r[..1]) == 0;
      assert r[|r| - 1] == DigitChar(n);
    } else {
      NatToStringLength(n, 2);
      NatToStringRoundTrip(n);
    }
  }

  /** Under 100 minutes, the clock reads MM:SS, and the minutes times
      sixty plus the seconds give back the time left. */
  lemma FormatTimeReadsBack(seconds: nat)
    requires seconds < 6000
    ensures var r := FormatTime(seconds);
      && |r| == 5 && r[2] == ':' && AllDigits(r[..2]) && AllDigits(r[3..])
      && DigitsValue(r[3..]) < 60
      && 60 * DigitsValue(r[..2]) + DigitsValue(r[3..]) == seconds
  {
    var r := FormatTime(seconds);
    TwoDigits(seconds / 60);
    TwoDigits(seconds % 60);
    assert r[..2] == Pad2(NatToString(seconds / 60));
    assert r[3..] == Pad2(NatToString(seconds % 60));
  }

  /** The dialog's first display reads "02:00". */
  lemma StartReadsTwoMinutes()
    ensures FormatTime(CountdownStart) == "02:00"
  {
    assert NatToString(2) == "2" && NatToString(0) == "0";
    assert Pad2("2") == "02" && Pad2("0") == "00";
    assert FormatTime(CountdownStart) == "02" + ":" + "00";
  }

  /** What leaving the dialog does. */
  datatype Effect = NavigateHome | CallOnClose

  /** `handleClose`: the parent's `onClose` when there is one, else home. */
  function CloseEffects(hasOnClose: bool): (effects: seq<Effect>)
    ensures |effects| == 1
    ensures effects[0] == CallOnClose <==> hasOnClose
  {
    if hasOnClose then [CallOnClose] else [NavigateHome]
  }

  /** The timer's redirect: home, then `onClose` when there is one. */
  function RedirectEffects(hasOnClose: bool): (effects: seq<Effect>)
    ensures |effects| >= 1 && effects[0] == NavigateHome
    ensures CallOnClose in effects <==> hasOnClose
  {
    [NavigateHome] + (if hasOnClose then [CallOnClose] else [])
  }

  class Countdown {
    var countdown: nat
    var redirecting: bool
    var qrSrc: string
    /** How many times the timer has sent the visitor home. */
    ghost var redirects: nat

    /** The count never exceeds two minutes, the redirect starts only at
        zero, and it has happened once exactly when it has started. */
    ghost predicate Valid()
      reads this
    {
      countdown <= CountdownStart && (redirecting ==> countdown == 0)
      && redirects == (if redirecting then 1 else 0)
    }

    constructor ()
      ensures Valid() && countdown == CountdownStart && !redirecting && qrSrc == QrImage
    {
      countdown := CountdownStart;
      redirecting := false;
      qrSrc := QrImage;
      redirects := 0;
    }

    /** One run of the effect: a second off the count while time is left;
        at zero, the one redirect; after it, nothing. */
    method Tick(hasOnClose: bool) returns (effects: seq<Effect>)
      requires Valid()
      modifies this`countdown, this`redirecting, this`redirects
      ensures Valid()
      ensures old(countdown) > 0 ==>
        countdown == old(countdown) - 1 && !redirecting && effects == []
      ensures old(countdown) == 0 && !old(redirecting) ==>
        countdown == 0 && redirecting && effects == RedirectEffects(hasOnClose)
      ensures old(countdown) == 0 && old(redirecting) ==>
        countdown == 0 && redirecting && redirects == old(redirects) && effects == []
    {
      effects := [];
      if countdown > 0 {
        countdown := countdown - 1;
      } else if !redirecting {
        redirecting := true;
        redirects := redirects + 1;
        effects := RedirectEffects(hasOnClose);
      }
    }

    /** The image's `onError`: the fallback picture. */
    method QrFailed()
      modifies this`qrSrc
      ensures qrSrc == FallbackQr
    {
      qrSrc := FallbackQr;
    }
  }

  /** A dialog left open sends the visitor home at the 121st run of the
      effect, and the run after that does nothing. */
  method LeftOpen(hasOnClose: bool) returns (homeAt: nat, later: seq<Effect>)
    ensures homeAt == CountdownStart + 1 && later == []
  {
    var dialog := new Countdown();
    var runs := 0;
    homeAt := 0;
    while !dialog.redirecting
      invariant dialog.Valid()
      invariant runs + dialog.countdown == CountdownStart + (if dialog.redirecting then 1 else 0)
      invariant homeAt == (if dialog.redirecting then runs else 0)
      decreases dialog.countdown + (if dialog.redirecting then 0 else 1)
    {
      var effects := dialog.Tick(hasOnClose);
      runs := runs + 1;
      if NavigateHome in effects {
        homeAt := runs;
      }
    }
    later := dialog.Tick(hasOnClose);
  }
}
