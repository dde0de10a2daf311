/**
  The five derived features the prediction form computes from the episode
  length, the ad count and the host and guest popularity (streamlit_app.py).

  The formulas are computed for whatever numbers reach them; the ranges the
  form's widgets allow appear only as the requires of `DerivedBounds`.
  Python's true division `/` is modelled as exact division on `real`.
 */
module Features {

  /** `max(Episode_Length_minutes, 1)`: the ad-density denominator */
  function AdDenominator(length: int): (d: int)
    ensures d >= 1 && d >= length
    ensures d == length || d == 1
  {
    if length >= 1 then length else 1
  }

  /** `Ad_Density`: ads per minute of episode, with lengths below one minute
      counted as one minute */
  function AdDensity(ads: int, length: int): (r: real)
    ensures r * AdDenominator(length) as real == ads as real
    ensures length >= 1 ==> r * length as real == ads as real
    ensures length < 1 ==> r == ads as real
    ensures ads >= 0 ==> 0.0 <= r <= ads as real
  {
    var d := AdDenominator(length) as real;
    var r := ads as real / d;
    assert ads >= 0 ==> r <= ads as real by {
      if ads >= 0 {
        assert r * d == ads as real;
        assert r * 1.0 <= r * d;
      }
    }
    r
  }

  /** `Popularity_Diff`: how much more popular the host is than the guest */
  function PopularityDiff(host: int, guest: int): (r: int)
    ensures guest + r == host
  {
    host - guest
  }

  /** `Popularity_Interaction`: zero when either side has no popularity,
      never negative for non-negative popularities, and at most 10000 within
      the sliders' 0..100 range */
  function PopularityInteraction(host: int, guest: int): (r: int)
    ensures host == 0 || guest == 0 ==> r == 0
    ensures host >= 0 && guest >= 0 ==> r >= 0
    ensures 0 <= host <= 100 && 0 <= guest <= 100 ==> r <= 10000
  {
    assert 0 <= host <= 100 && 0 <= guest <= 100 ==> host * guest <= 100 * guest by {
      if 0 <= host <= 100 && 0 <= guest <= 100 {
        assert (100 - host) * guest >= 0;
      }
    }
    host * guest
  }

  /** `Host_Popularity_squared`: the interaction of the host with itself */
  function HostSquared(host: int): (r: int)
    ensures r == PopularityInteraction(host, host)
    ensures r >= 0
  {
    host * host
  }

  /** `Popularity_Average`: the midpoint of host and guest popularity */
  function PopularityAverage(host: int, guest: int): (r: real)
    ensures 2.0 * r == (host + guest) as real
    ensures host <= guest ==> host as real <= r <= guest as real
    ensures guest <= host ==> guest as real <= r <= host as real
  {
    (host + guest) as real / 2.0
  }

  /** The derived columns of one feature row */
  datatype Derived = Derived(
    adDensity: real,
    popularityDiff: int,
    popularityInteraction: int,
    hostSquared: int,
    popularityAverage: real)

  /** All five derived features of one form submission. Besides each
      feature's own relation to the inputs, the features are tied to each
      other: the square splits into interaction plus host times difference,
      and the average sits half the difference above the guest. */
  function Derive(length: int, ads: int, host: int, guest: int): (d: Derived)
    ensures d.adDensity * AdDenominator(length) as real == ads as real
    ensures guest + d.popularityDiff == host
    ensures d.hostSquared == d.popularityInteraction + host * d.popularityDiff
    ensures 2.0 * (d.popularityAverage - guest as real) == d.popularityDiff as real
    ensures 2.0 * d.popularityAverage == (host + guest) as real
  {
    Derived(
      AdDensity(ads, length),
      PopularityDiff(host, guest),
      PopularityInteraction(host, guest),
      HostSquared(host),
      PopularityAverage(host, guest))
  }

  /** Within the ranges the form's widgets allow, every derived feature stays
      in a fixed range, and the ad density is the plain ads-per-minute ratio. */
  lemma DerivedBounds(length: int, ads: int, host: int, guest: int)
    requires length >= 1
    requires 0 <= ads <= 10
    requires 0 <= host <= 100 && 0 <= guest <= 100
    ensures Derive(length, ads, host, guest).adDensity * length as real == ads as real
    ensures 0.0 <= Derive(length, ads, host, guest).adDensity <= 10.0
    ensures -100 <= Derive(length, ads, host, guest).popularityDiff <= 100
    ensures 0 <= Derive(length, ads, host, guest).popularityInteraction <= 10000
    ensures 0 <= Derive(length, ads, host, guest).hostSquared <= 10000
    ensures 0.0 <= Derive(length, ads, host, guest).popularityAverage <= 100.0
  {
  }

  /** The derived features of host 70 and guest 40, and the ad-density
      floor for an episode length below one minute. */
  lemma WorkedExamples(length: int)
    requires length < 1
    ensures AdDensity(5, length) == 5.0
    ensures PopularityDiff(70, 40) == 30
    ensures PopularityInteraction(70, 40) == 2800
    ensures HostSquared(70) == 4900
    ensures PopularityAverage(70, 40) == 55.0
  {
  }
}
