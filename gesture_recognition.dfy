/** The static hand-sign classifier of the gesture-recognition component: six
    geometric predicates over one hand's 21 landmarks, tried in a fixed order,
    and the per-frame loop that reports every classified hand to the caller.
    Coordinates are exact reals; the predicates only compare them. */
module GestureRecognition {
  import opened Wrappers

  /** A landmark in normalised image coordinates (y grows downwards). */
  datatype Landmark = Landmark(x: real, y: real, z: real)

  type Landmarks = seq<Landmark>

  /** The hand-tracking model reports 21 landmarks per hand; the predicates read indices 0..20. */
  const LandmarkCount: nat := 21

  datatype Gesture = Hello | ThankYou | Yes | No | Please | Sorry

  /** The label passed to `onGestureDetected`. */
  function Name(g: Gesture): string {
    match g
    case Hello => "hello"
    case ThankYou => "thank_you"
    case Yes => "yes"
    case No => "no"
    case Please => "please"
    case Sorry => "sorry"
  }

  lemma NameInjective(g: Gesture, h: Gesture)
    ensures Name(g) == Name(h) <==> g == h
  {
  }

  /** The insertion order of the `gesturePatterns` object, which `Object.entries` follows. */
  const GesturePatterns: seq<Gesture> := [Hello, ThankYou, Yes, No, Please, Sorry]

  /** The position of a gesture in `GesturePatterns`. */
  function Rank(g: Gesture): (k: nat)
    ensures k < |GesturePatterns| && GesturePatterns[k] == g
  {
    match g
    case Hello => 0
    case ThankYou => 1
    case Yes => 2
    case No => 3
    case Please => 4
    case Sorry => 5
  }

  /** `bs.filter(f => f).length`. */
  function CountTrue(bs: seq<bool>): (n: nat)
    ensures n <= |bs|
  {
    if bs == [] then 0 else (if bs[0] then 1 else 0) + CountTrue(bs[1..])
  }

  function Bit(b: bool): nat {
    if b then 1 else 0
  }

  lemma CountTrue4(a: bool, b: bool, c: bool, d: bool)
    ensures CountTrue([a, b, c, d]) == Bit(a) + Bit(b) + Bit(c) + Bit(d)
  {
    assert [d][1..] == [];
    assert CountTrue([d]) == Bit(d);
    assert [c, d][1..] == [d];
    assert CountTrue([c, d]) == Bit(c) + Bit(d);
    assert [b, c, d][1..] == [c, d];
    assert CountTrue([b, c, d]) == Bit(b) + Bit(c) + Bit(d);
    assert [a, b, c, d][1..] == [b, c, d];
  }

  lemma CountTrue5(a: bool, b: bool, c: bool, d: bool, e: bool)
    ensures CountTrue([a, b, c, d, e]) == Bit(a) + Bit(b) + Bit(c) + Bit(d) + Bit(e)
  {
    assert [a, b, c, d, e][1..] == [b, c, d, e];
    CountTrue4(b, c, d, e);
  }

  /** The fingertip lies strictly above the joint: the finger is extended. */
  predicate TipAbove(landmarks: Landmarks, tip: nat, joint: nat)
    requires tip < |landmarks| && joint < |landmarks|
  {
    landmarks[tip].y < landmarks[joint].y
  }

  /** The fingertip lies strictly below the joint: the finger is folded. */
  predicate TipBelow(landmarks: Landmarks, tip: nat, joint: nat)
    requires tip < |landmarks| && joint < |landmarks|
  {
    landmarks[tip].y > landmarks[joint].y
  }

  function Abs(r: real): real {
    if r < 0.0 then -r else r
  }

  /** Hello (open palm): at least four of the five fingertips above their joints. */
  predicate DetectHelloGesture(landmarks: Landmarks, handLabel: string)
    requires |landmarks| >= LandmarkCount
  {
    var fingersUp := [
      TipAbove(landmarks, 4, 3),
      TipAbove(landmarks, 8, 6),
      TipAbove(landmarks, 12, 10),
      TipAbove(landmarks, 16, 14),
      TipAbove(landmarks, 20, 18)
    ];
    CountTrue(fingersUp) >= 4
  }

  /** Thank you: index, middle and thumb tips above their joints. */
  predicate DetectThankYouGesture(landmarks: Landmarks, handLabel: string)
    requires |landmarks| >= LandmarkCount
  {
    TipAbove(landmarks, 8, 6) && TipAbove(landmarks, 12, 10) && TipAbove(landmarks, 4, 3)
  }

  /** Yes (closed fist): at least three of index..pinky tips below their joints. */
  predicate DetectYesGesture(landmarks: Landmarks, handLabel: string)
    requires |landmarks| >= LandmarkCount
  {
    var fingersFolded := [
      TipBelow(landmarks, 8, 6),
      TipBelow(landmarks, 12, 10),
      TipBelow(landmarks, 16, 14),
      TipBelow(landmarks, 20, 18)
    ];
    CountTrue(fingersFolded) >= 3
  }

  /** No (pointing finger): index up, middle, ring and pinky down. */
  predicate DetectNoGesture(landmarks: Landmarks, handLabel: string)
    requires |landmarks| >= LandmarkCount
  {
    TipAbove(landmarks, 8, 6) && TipBelow(landmarks, 12, 10)
    && TipBelow(landmarks, 16, 14) && TipBelow(landmarks, 20, 18)
  }

  /** The fingertips index, middle, ring and pinky; each is compared with the landmark two below it. */
  const PleaseFingers: seq<nat> := [8, 12, 16, 20]

  /** Please (flat hand): at least three of the tips 8, 12, 16, 20 above landmark `i - 2`. */
  predicate DetectPleaseGesture(landmarks: Landmarks, handLabel: string)
    requires |landmarks| >= LandmarkCount
  {
    var fingersExtended := seq(|PleaseFingers|, k requires 0 <= k < |PleaseFingers| =>
      TipAbove(landmarks, PleaseFingers[k], PleaseFingers[k] - 2));
    CountTrue(fingersExtended) >= 3
  }

  /** Sorry (hand near the centre): the wrist within a band around the middle of the image. */
  predicate DetectSorryGesture(landmarks: Landmarks, handLabel: string)
    requires |landmarks| >= LandmarkCount
  {
    var wrist := landmarks[0];
    Abs(wrist.x - 0.5) < 0.2 && wrist.y > 0.4 && wrist.y < 0.8
  }

  /** The detector `gesturePatterns` associates with a gesture. */
  predicate Detect(g: Gesture, landmarks: Landmarks, handLabel: string)
    requires |landmarks| >= LandmarkCount
  {
    match g
    case Hello => DetectHelloGesture(landmarks, handLabel)
    case ThankYou => DetectThankYouGesture(landmarks, handLabel)
    case Yes => DetectYesGesture(landmarks, handLabel)
    case No => DetectNoGesture(landmarks, handLabel)
    case Please => DetectPleaseGesture(landmarks, handLabel)
    case Sorry => DetectSorryGesture(landmarks, handLabel)
  }

  /** The first gesture of `patterns` whose detector holds, or `None`. */
  function FirstMatch(patterns: seq<Gesture>, landmarks: Landmarks, handLabel: string): (r: Option<Gesture>)
    requires |landmarks| >= LandmarkCount
    ensures r.None? <==> forall k :: 0 <= k < |patterns| ==> !Detect(patterns[k], landmarks, handLabel)
    ensures r.Some? ==> exists k :: 0 <= k < |patterns| && patterns[k] == r.value
                          && Detect(r.value, landmarks, handLabel)
                          && forall j :: 0 <= j < k ==> !Detect(patterns[j], landmarks, handLabel)
  {
    if patterns == [] then None
    else if Detect(patterns[0], landmarks, handLabel) then Some(patterns[0])
    else
      var r := FirstMatch(patterns[1..], landmarks, handLabel);
      assert r.Some? ==> exists k :: 1 <= k < |patterns| && patterns[k] == r.value
                          && Detect(r.value, landmarks, handLabel)
                          && forall j :: 0 <= j < k ==> !Detect(patterns[j], landmarks, handLabel) by {
        if r.Some? {
          var k :| 0 <= k < |patterns[1..]| && patterns[1..][k] == r.value
                   && forall j :: 0 <= j < k ==> !Detect(patterns[1..][j], landmarks, handLabel);
          assert patterns[k + 1] == r.value;
          forall j | 0 <= j < k + 1 ensures !Detect(patterns[j], landmarks, handLabel) {
            if j > 0 { assert patterns[j] == patterns[1..][j - 1]; }
          }
        }
      }
      r
  }

  /** What `detectGesture` returns for one hand. */
  function Classify(landmarks: Landmarks, handLabel: string): Option<Gesture>
    requires |landmarks| >= LandmarkCount
  {
    FirstMatch(GesturePatterns, landmarks, handLabel)
  }

  /** `FirstMatch` skips a leading pattern that does not hold. */
  lemma FirstMatchSkip(patterns: seq<Gesture>, i: nat, landmarks: Landmarks, handLabel: string)
    requires |landmarks| >= LandmarkCount
    requires i < |patterns| && !Detect(patterns[i], landmarks, handLabel)
    ensures FirstMatch(patterns[i..], landmarks, handLabel) == FirstMatch(patterns[i + 1..], landmarks, handLabel)
  {
    assert patterns[i..][1..] == patterns[i + 1..];
  }

  /** `detectGesture`: the loop over the entries of `gesturePatterns` with an early return. */
  method DetectGesture(landmarks: Landmarks, handLabel: string) returns (r: Option<Gesture>)
    requires |landmarks| >= LandmarkCount
    ensures r == Classify(landmarks, handLabel)
    ensures r.None? <==> forall g :: !Detect(g, landmarks, handLabel)
    ensures r.Some? ==> Detect(r.value, landmarks, handLabel)
                        && forall g :: Rank(g) < Rank(r.value) ==> !Detect(g, landmarks, handLabel)
  {
    var i := 0;
    while i < |GesturePatterns|
      invariant 0 <= i <= |GesturePatterns|
      invariant Classify(landmarks, handLabel) == FirstMatch(GesturePatterns[i..], landmarks, handLabel)
    {
      if Detect(GesturePatterns[i], landmarks, handLabel) {
        r := Some(GesturePatterns[i]);
        ClassifyFirstMatch(landmarks, handLabel, r.value);
        return;
      }
      FirstMatchSkip(GesturePatterns, i, landmarks, handLabel);
      i := i + 1;
    }
    r := None;
    ClassifyNone(landmarks, handLabel);
  }

  /** Ordered first-match: a gesture is returned exactly when its detector holds
      and no detector earlier in `gesturePatterns` does. */
  lemma ClassifyFirstMatch(landmarks: Landmarks, handLabel: string, g: Gesture)
    requires |landmarks| >= LandmarkCount
    ensures Classify(landmarks, handLabel) == Some(g)
            <==> Detect(g, landmarks, handLabel)
                 && forall h :: Rank(h) < Rank(g) ==> !Detect(h, landmarks, handLabel)
  {
    var r := Classify(landmarks, handLabel);
    assert forall k :: 0 <= k < |GesturePatterns| ==> Rank(GesturePatterns[k]) == k;
    if r.Some? {
      var k :| 0 <= k < |GesturePatterns| && GesturePatterns[k] == r.value
               && Detect(r.value, landmarks, handLabel)
               && forall j :: 0 <= j < k ==> !Detect(GesturePatterns[j], landmarks, handLabel);
      assert Rank(r.value) == k;
      forall h | Rank(h) < k ensures !Detect(h, landmarks, handLabel) {
        assert GesturePatterns[Rank(h)] == h;
      }
      if Detect(g, landmarks, handLabel) && forall h :: Rank(h) < Rank(g) ==> !Detect(h, landmarks, handLabel) {
        assert Rank(g) >= k;
        assert Rank(g) <= k;
      }
    } else {
      assert !Detect(GesturePatterns[Rank(g)], landmarks, handLabel);
    }
  }

  /** `detectGesture` returns `null` exactly when no detector holds. */
  lemma ClassifyNone(landmarks: Landmarks, handLabel: string)
    requires |landmarks| >= LandmarkCount
    ensures Classify(landmarks, handLabel).None? <==> forall g :: !Detect(g, landmarks, handLabel)
  {
    forall g ensures Classify(landmarks, handLabel).None? ==> !Detect(g, landmarks, handLabel) {
      assert GesturePatterns[Rank(g)] == g;
    }
  }

  /** The pointing finger of "no" has middle, ring and pinky folded, which is
      already three folded fingers: every "no" hand is also a "yes" hand. */
  lemma NoImpliesYes(landmarks: Landmarks, handLabel: string)
    requires |landmarks| >= LandmarkCount
    ensures DetectNoGesture(landmarks, handLabel) ==> DetectYesGesture(landmarks, handLabel)
  {
    CountTrue4(TipBelow(landmarks, 8, 6), TipBelow(landmarks, 12, 10),
               TipBelow(landmarks, 16, 14), TipBelow(landmarks, 20, 18));
  }

  /** "no" is dead: "yes" is tried earlier and subsumes it. */
  lemma NoNeverClassified(landmarks: Landmarks, handLabel: string)
    requires |landmarks| >= LandmarkCount
    ensures Classify(landmarks, handLabel) != Some(No)
  {
    NoImpliesYes(landmarks, handLabel);
    ClassifyFirstMatch(landmarks, handLabel, No);
    assert Rank(Yes) < Rank(No);
  }

  /** The i-th finger of the hello test (thumb, index, middle, ring, pinky) is extended. */
  predicate FingerUp(landmarks: Landmarks, i: nat)
    requires |landmarks| >= LandmarkCount && i < 5
  {
    match i
    case 0 => TipAbove(landmarks, 4, 3)
    case 1 => TipAbove(landmarks, 8, 6)
    case 2 => TipAbove(landmarks, 12, 10)
    case 3 => TipAbove(landmarks, 16, 14)
    case _ => TipAbove(landmarks, 20, 18)
  }

  /** Hello holds exactly when at most one of the five fingers is not extended:
      of any two fingers, at least one is up. */
  lemma HelloAtMostOneDown(landmarks: Landmarks, handLabel: string)
    requires |landmarks| >= LandmarkCount
    ensures DetectHelloGesture(landmarks, handLabel)
            <==> forall i, j :: 0 <= i < j < 5 ==> FingerUp(landmarks, i) || FingerUp(landmarks, j)
  {
    CountTrue5(FingerUp(landmarks, 0), FingerUp(landmarks, 1), FingerUp(landmarks, 2),
               FingerUp(landmarks, 3), FingerUp(landmarks, 4));
    if forall i, j :: 0 <= i < j < 5 ==> FingerUp(landmarks, i) || FingerUp(landmarks, j) {
      assert FingerUp(landmarks, 0) || FingerUp(landmarks, 1);
      assert FingerUp(landmarks, 0) || FingerUp(landmarks, 2);
      assert FingerUp(landmarks, 0) || FingerUp(landmarks, 3);
      assert FingerUp(landmarks, 0) || FingerUp(landmarks, 4);
      assert FingerUp(landmarks, 1) || FingerUp(landmarks, 2);
      assert FingerUp(landmarks, 1) || FingerUp(landmarks, 3);
      assert FingerUp(landmarks, 1) || FingerUp(landmarks, 4);
      assert FingerUp(landmarks, 2) || FingerUp(landmarks, 3);
      assert FingerUp(landmarks, 2) || FingerUp(landmarks, 4);
      assert FingerUp(landmarks, 3) || FingerUp(landmarks, 4);
    }
  }

  /** The please test, unrolled over its four fingertips. */
  lemma PleaseUnrolled(landmarks: Landmarks, handLabel: string)
    requires |landmarks| >= LandmarkCount
    ensures DetectPleaseGesture(landmarks, handLabel)
            <==> Bit(TipAbove(landmarks, 8, 6)) + Bit(TipAbove(landmarks, 12, 10))
                 + Bit(TipAbove(landmarks, 16, 14)) + Bit(TipAbove(landmarks, 20, 18)) >= 3
  {
    var fingersExtended := seq(|PleaseFingers|, k requires 0 <= k < |PleaseFingers| =>
      TipAbove(landmarks, PleaseFingers[k], PleaseFingers[k] - 2));
    assert fingersExtended == [TipAbove(landmarks, 8, 6), TipAbove(landmarks, 12, 10),
                               TipAbove(landmarks, 16, 14), TipAbove(landmarks, 20, 18)];
    CountTrue4(TipAbove(landmarks, 8, 6), TipAbove(landmarks, 12, 10),
               TipAbove(landmarks, 16, 14), TipAbove(landmarks, 20, 18));
  }

  /** Please and yes compare the same tips with the same joints, three extended
      and three folded cannot both fit in four fingers. */
  lemma PleaseExcludesYes(landmarks: Landmarks, handLabel: string)
    requires |landmarks| >= LandmarkCount
    ensures DetectPleaseGesture(landmarks, handLabel) ==> !DetectYesGesture(landmarks, handLabel)
  {
    PleaseUnrolled(landmarks, handLabel);
    CountTrue4(TipBelow(landmarks, 8, 6), TipBelow(landmarks, 12, 10),
               TipBelow(landmarks, 16, 14), TipBelow(landmarks, 20, 18));
  }

  /** An open palm for hello has at least three of the four non-thumb fingers up. */
  lemma HelloImpliesPlease(landmarks: Landmarks, handLabel: string)
    requires |landmarks| >= LandmarkCount
    ensures DetectHelloGesture(landmarks, handLabel) ==> DetectPleaseGesture(landmarks, handLabel)
  {
    PleaseUnrolled(landmarks, handLabel);
    CountTrue5(TipAbove(landmarks, 4, 3), TipAbove(landmarks, 8, 6), TipAbove(landmarks, 12, 10),
               TipAbove(landmarks, 16, 14), TipAbove(landmarks, 20, 18));
  }

  /** When "thank_you" is returned, thumb, index and middle are up and ring and pinky are not
      (otherwise hello, tried first, would have matched). */
  lemma ThankYouShape(landmarks: Landmarks, handLabel: string)
    requires |landmarks| >= LandmarkCount
    requires Classify(landmarks, handLabel) == Some(ThankYou)
    ensures TipAbove(landmarks, 4, 3) && TipAbove(landmarks, 8, 6) && TipAbove(landmarks, 12, 10)
    ensures !TipAbove(landmarks, 16, 14) && !TipAbove(landmarks, 20, 18)
  {
    ClassifyFirstMatch(landmarks, handLabel, ThankYou);
    assert Rank(Hello) < Rank(ThankYou);
    CountTrue5(TipAbove(landmarks, 4, 3), TipAbove(landmarks, 8, 6), TipAbove(landmarks, 12, 10),
               TipAbove(landmarks, 16, 14), TipAbove(landmarks, 20, 18));
  }

  /** When "please" is returned, exactly three of index..pinky are extended and the
      thumb is not (with a fourth finger or the thumb, hello would have matched). */
  lemma PleaseShape(landmarks: Landmarks, handLabel: string)
    requires |landmarks| >= LandmarkCount
    requires Classify(landmarks, handLabel) == Some(Please)
    ensures Bit(TipAbove(landmarks, 8, 6)) + Bit(TipAbove(landmarks, 12, 10))
            + Bit(TipAbove(landmarks, 16, 14)) + Bit(TipAbove(landmarks, 20, 18)) == 3
    ensures !TipAbove(landmarks, 4, 3)
  {
    ClassifyFirstMatch(landmarks, handLabel, Please);
    assert Rank(Hello) < Rank(Please);
    PleaseUnrolled(landmarks, handLabel);
    CountTrue5(TipAbove(landmarks, 4, 3), TipAbove(landmarks, 8, 6), TipAbove(landmarks, 12, 10),
               TipAbove(landmarks, 16, 14), TipAbove(landmarks, 20, 18));
  }

  /** The sorry test is the open box 0.3 < x < 0.7, 0.4 < y < 0.8 around the wrist. */
  lemma SorryBand(landmarks: Landmarks, handLabel: string)
    requires |landmarks| >= LandmarkCount
    ensures DetectSorryGesture(landmarks, handLabel)
            <==> 0.3 < landmarks[0].x < 0.7 && 0.4 < landmarks[0].y < 0.8
  {
  }

  /** Sorry reads only the wrist. */
  lemma SorryOnlyWrist(a: Landmarks, b: Landmarks, handLabel: string)
    requires |a| >= LandmarkCount && |b| >= LandmarkCount && a[0] == b[0]
    ensures DetectSorryGesture(a, handLabel) == DetectSorryGesture(b, handLabel)
  {
  }

  /** No detector reads the handedness label. */
  lemma HandednessIgnored(landmarks: Landmarks, left: string, right: string)
    requires |landmarks| >= LandmarkCount
    ensures Classify(landmarks, left) == Classify(landmarks, right)
  {
    forall g ensures Detect(g, landmarks, left) == Detect(g, landmarks, right) {
    }
    ClassifyNone(landmarks, left);
    ClassifyNone(landmarks, right);
    var r := Classify(landmarks, left);
    if r.Some? {
      ClassifyFirstMatch(landmarks, left, r.value);
      ClassifyFirstMatch(landmarks, right, r.value);
    }
  }

  /** Only the first 21 landmarks matter. */
  lemma OnlyFirstLandmarksRead(landmarks: Landmarks, handLabel: string)
    requires |landmarks| >= LandmarkCount
    ensures Classify(landmarks, handLabel) == Classify(landmarks[..LandmarkCount], handLabel)
  {
    var short := landmarks[..LandmarkCount];
    forall g ensures Detect(g, landmarks, handLabel) == Detect(g, short, handLabel) {
      DetectReadsPrefix(g, landmarks, handLabel);
    }
    ClassifyNone(landmarks, handLabel);
    ClassifyNone(short, handLabel);
    var r := Classify(landmarks, handLabel);
    if r.Some? {
      ClassifyFirstMatch(landmarks, handLabel, r.value);
      ClassifyFirstMatch(short, handLabel, r.value);
    }
  }

  lemma DetectReadsPrefix(g: Gesture, landmarks: Landmarks, handLabel: string)
    requires |landmarks| >= LandmarkCount
    ensures Detect(g, landmarks, handLabel) == Detect(g, landmarks[..LandmarkCount], handLabel)
  {
    var short := landmarks[..LandmarkCount];
    assert forall i :: 0 <= i < LandmarkCount ==> short[i] == landmarks[i];
    if g == Please {
      PleaseUnrolled(landmarks, handLabel);
      PleaseUnrolled(short, handLabel);
    }
  }

  /** A hand whose landmarks all sit at height 0.5, except the tips in `up`
      (raised to 0.0) and in `down` (lowered to 1.0), with the given wrist x. */
  function Pose(up: set<nat>, down: set<nat>, wristX: real): (lm: Landmarks)
    ensures |lm| == LandmarkCount
  {
    seq(LandmarkCount, i requires 0 <= i < LandmarkCount =>
      Landmark(if i == 0 then wristX else 0.5,
               if i in up then 0.0 else if i in down then 1.0 else 0.5,
               0.0))
  }

  /** An open palm: every fingertip raised. */
  lemma ReachHello()
    ensures Classify(Pose({4, 8, 12, 16, 20}, {}, 0.0), "Right") == Some(Hello)
  {
    var hand := Pose({4, 8, 12, 16, 20}, {}, 0.0);
    assert TipAbove(hand, 4, 3) && TipAbove(hand, 8, 6) && TipAbove(hand, 12, 10);
    assert TipAbove(hand, 16, 14) && TipAbove(hand, 20, 18);
    CountTrue5(true, true, true, true, true);
    assert Detect(Hello, hand, "Right");
    ClassifyFirstMatch(hand, "Right", Hello);
  }

  /** Thumb, index and middle raised, ring and pinky level with their joints. */
  lemma ReachThankYou()
    ensures Classify(Pose({4, 8, 12}, {}, 0.0), "Right") == Some(ThankYou)
  {
    var hand := Pose({4, 8, 12}, {}, 0.0);
    assert TipAbove(hand, 4, 3) && TipAbove(hand, 8, 6) && TipAbove(hand, 12, 10);
    assert !TipAbove(hand, 16, 14) && !TipAbove(hand, 20, 18);
    ThreeUpIsThankYou(hand, "Right");
  }

  /** Thumb, index and middle extended, ring and pinky not: the hand is classified "thank_you". */
  lemma ThreeUpIsThankYou(hand: Landmarks, handLabel: string)
    requires |hand| >= LandmarkCount
    requires TipAbove(hand, 4, 3) && TipAbove(hand, 8, 6) && TipAbove(hand, 12, 10)
    requires !TipAbove(hand, 16, 14) && !TipAbove(hand, 20, 18)
    ensures Classify(hand, handLabel) == Some(ThankYou)
  {
    CountTrue5(true, true, true, false, false);
    assert !DetectHelloGesture(hand, handLabel);
    ClassifyFirstMatch(hand, handLabel, ThankYou);
  }

  /** A fist: index..pinky lowered. */
  lemma ReachYes()
    ensures Classify(Pose({}, {8, 12, 16, 20}, 0.0), "Right") == Some(Yes)
  {
    var hand := Pose({}, {8, 12, 16, 20}, 0.0);
    assert !TipAbove(hand, 4, 3) && !TipAbove(hand, 8, 6) && !TipAbove(hand, 12, 10);
    assert !TipAbove(hand, 16, 14) && !TipAbove(hand, 20, 18);
    assert TipBelow(hand, 8, 6) && TipBelow(hand, 12, 10) && TipBelow(hand, 16, 14) && TipBelow(hand, 20, 18);
    FistIsYes(hand, "Right");
  }

  /** No finger extended and index..pinky folded: the hand is classified "yes". */
  lemma FistIsYes(hand: Landmarks, handLabel: string)
    requires |hand| >= LandmarkCount
    requires !TipAbove(hand, 4, 3) && !TipAbove(hand, 8, 6) && !TipAbove(hand, 12, 10)
    requires !TipAbove(hand, 16, 14) && !TipAbove(hand, 20, 18)
    requires TipBelow(hand, 8, 6) && TipBelow(hand, 12, 10) && TipBelow(hand, 16, 14) && TipBelow(hand, 20, 18)
    ensures Classify(hand, handLabel) == Some(Yes)
  {
    CountTrue5(false, false, false, false, false);
    CountTrue4(true, true, true, true);
    assert !DetectHelloGesture(hand, handLabel) && !DetectThankYouGesture(hand, handLabel);
    assert DetectYesGesture(hand, handLabel);
    ClassifyFirstMatch(hand, handLabel, Yes);
  }

  /** Index, middle and ring raised, thumb and pinky level. */
  lemma ReachPlease()
    ensures Classify(Pose({8, 12, 16}, {}, 0.0), "Right") == Some(Please)
  {
    var hand := Pose({8, 12, 16}, {}, 0.0);
    assert !TipAbove(hand, 4, 3) && TipAbove(hand, 8, 6) && TipAbove(hand, 12, 10);
    assert TipAbove(hand, 16, 14) && !TipAbove(hand, 20, 18);
    ThreeFingersArePlease(hand, "Right");
  }

  /** Index, middle and ring extended, thumb and pinky not: the hand is classified "please". */
  lemma ThreeFingersArePlease(hand: Landmarks, handLabel: string)
    requires |hand| >= LandmarkCount
    requires !TipAbove(hand, 4, 3) && TipAbove(hand, 8, 6) && TipAbove(hand, 12, 10)
    requires TipAbove(hand, 16, 14) && !TipAbove(hand, 20, 18)
    ensures Classify(hand, handLabel) == Some(Please)
  {
    CountTrue5(false, true, true, true, false);
    CountTrue4(false, false, false, TipBelow(hand, 20, 18));
    PleaseUnrolled(hand, handLabel);
    assert !DetectHelloGesture(hand, handLabel) && !DetectThankYouGesture(hand, handLabel);
    assert !DetectYesGesture(hand, handLabel) && !DetectNoGesture(hand, handLabel);
    ClassifyFirstMatch(hand, handLabel, Please);
  }

  /** Every landmark level, the wrist at the centre of the image. */
  lemma ReachSorry()
    ensures Classify(Pose({}, {}, 0.5), "Right") == Some(Sorry)
  {
    var hand := Pose({}, {}, 0.5);
    CountTrue5(false, false, false, false, false);
    CountTrue4(false, false, false, false);
    PleaseUnrolled(hand, "Right");
    assert !DetectHelloGesture(hand, "Right") && !DetectThankYouGesture(hand, "Right");
    assert !DetectYesGesture(hand, "Right") && !DetectNoGesture(hand, "Right");
    assert !DetectPleaseGesture(hand, "Right");
    ClassifyFirstMatch(hand, "Right", Sorry);
  }

  /** Every landmark level, the wrist at the left edge: nothing is recognised. */
  lemma ReachNone()
    ensures Classify(Pose({}, {}, 0.0), "Right") == None
  {
    var hand := Pose({}, {}, 0.0);
    CountTrue5(false, false, false, false, false);
    CountTrue4(false, false, false, false);
    PleaseUnrolled(hand, "Right");
    assert !DetectHelloGesture(hand, "Right") && !DetectThankYouGesture(hand, "Right");
    assert !DetectYesGesture(hand, "Right") && !DetectNoGesture(hand, "Right");
    assert !DetectPleaseGesture(hand, "Right") && !DetectSorryGesture(hand, "Right");
    ClassifyNone(hand, "Right");
  }

  /** The handedness entry of one hand; only its label (`handedness.label`) is passed on. */
  datatype Handedness = Handedness(handLabel: string)

  /** What the hand tracker hands to `onResults`: either list may be absent. */
  datatype HandsResults = HandsResults(multiHandLandmarks: Option<seq<Landmarks>>,
                                       multiHandedness: Option<seq<Handedness>>)

  /** Every hand has its 21 landmarks and its handedness entry. */
  predicate HandsWellFormed(hands: seq<Landmarks>, handedness: seq<Handedness>) {
    |handedness| >= |hands| && forall i :: 0 <= i < |hands| ==> |hands[i]| >= LandmarkCount
  }

  predicate ResultsWellFormed(results: HandsResults) {
    results.multiHandLandmarks.Some? && results.multiHandedness.Some?
    ==> HandsWellFormed(results.multiHandLandmarks.value, results.multiHandedness.value)
  }

  /** The labels passed to `onGestureDetected` for one classification. */
  function Label(c: Option<Gesture>): (r: seq<string>)
    ensures |r| <= 1
    ensures c != Some(No) ==> "no" !in r
  {
    match c
    case Some(g) => [Name(g)]
    case None => []
  }

  /** The labels of a run of classifications, in order. */
  function Labels(cs: seq<Option<Gesture>>): (r: seq<string>)
    ensures |r| <= |cs|
  {
    if cs == [] then [] else Label(cs[0]) + Labels(cs[1..])
  }

  lemma {:induction false} LabelsAppend(a: seq<Option<Gesture>>, b: seq<Option<Gesture>>)
    ensures Labels(a + b) == Labels(a) + Labels(b)
    decreases |a|
  {
    if a == [] {
      assert a + b == b;
    } else {
      assert (a + b)[1..] == a[1..] + b;
      LabelsAppend(a[1..], b);
    }
  }

  lemma {:induction false} LabelsWithoutNo(cs: seq<Option<Gesture>>)
    requires forall i :: 0 <= i < |cs| ==> cs[i] != Some(No)
    ensures "no" !in Labels(cs)
    decreases |cs|
  {
    if cs != [] {
      assert Name(No) == "no";
      LabelsWithoutNo(cs[1..]);
    }
  }

  /** `detectGesture` applied to each hand with its handedness label. */
  function Classifications(hands: seq<Landmarks>, handedness: seq<Handedness>): (r: seq<Option<Gesture>>)
    requires HandsWellFormed(hands, handedness)
  {
    seq(|hands|, i requires 0 <= i < |hands| => Classify(hands[i], handedness[i].handLabel))
  }

  /** The labels passed to `onGestureDetected` for a list of hands, in hand order. */
  function HandEmissions(hands: seq<Landmarks>, handedness: seq<Handedness>): (r: seq<string>)
    requires HandsWellFormed(hands, handedness)
    ensures |r| <= |hands|
    ensures "no" !in r
  {
    var cs := Classifications(hands, handedness);
    assert forall i :: 0 <= i < |cs| ==> cs[i] != Some(No) by {
      forall i | 0 <= i < |cs| ensures cs[i] != Some(No) {
        NoNeverClassified(hands[i], handedness[i].handLabel);
      }
    }
    LabelsWithoutNo(cs);
    Labels(cs)
  }

  /** The labels one call of `onResults` reports. Nothing is reported when the canvas,
      its context or the video is missing, or when either list is absent. */
  function FrameEmissions(results: HandsResults, canvasReady: bool): seq<string>
    requires ResultsWellFormed(results)
  {
    if canvasReady && results.multiHandLandmarks.Some? && results.multiHandedness.Some? then
      HandEmissions(results.multiHandLandmarks.value, results.multiHandedness.value)
    else
      []
  }

  /** Emission distributes over a split of the hand list: each hand is reported
      on its own, in order, with nothing merged or suppressed across hands. */
  lemma HandEmissionsAppend(h1: seq<Landmarks>, d1: seq<Handedness>, h2: seq<Landmarks>, d2: seq<Handedness>)
    requires |d1| == |h1| && HandsWellFormed(h1, d1) && HandsWellFormed(h2, d2)
    ensures HandsWellFormed(h1 + h2, d1 + d2)
    ensures HandEmissions(h1 + h2, d1 + d2) == HandEmissions(h1, d1) + HandEmissions(h2, d2)
  {
    assert HandsWellFormed(h1 + h2, d1 + d2) by {
      forall i | 0 <= i < |h1 + h2| ensures |(h1 + h2)[i]| >= LandmarkCount {
        if i < |h1| { assert (h1 + h2)[i] == h1[i]; } else { assert (h1 + h2)[i] == h2[i - |h1|]; }
      }
    }
    var c1, c2 := Classifications(h1, d1), Classifications(h2, d2);
    var c := Classifications(h1 + h2, d1 + d2);
    forall i | 0 <= i < |c| ensures c[i] == (c1 + c2)[i] {
      if i < |h1| {
        assert (h1 + h2)[i] == h1[i] && (d1 + d2)[i] == d1[i];
      } else {
        assert (h1 + h2)[i] == h2[i - |h1|] && (d1 + d2)[i] == d2[i - |h1|];
      }
    }
    assert c == c1 + c2;
    LabelsAppend(c1, c2);
  }

  lemma HandEmissionsSingle(hand: Landmarks, handedness: Handedness)
    requires |hand| >= LandmarkCount
    ensures HandEmissions([hand], [handedness]) == Label(Classify(hand, handedness.handLabel))
  {
    var cs := Classifications([hand], [handedness]);
    assert cs == [Classify(hand, handedness.handLabel)];
    assert cs[1..] == [];
  }

  /** `onResults`: draws the frame (left out) and reports the hands of one frame.
      `emitted` is the sequence of `onGestureDetected` calls. */
  method OnResults(results: HandsResults, canvasReady: bool) returns (emitted: seq<string>)
    requires ResultsWellFormed(results)
    ensures emitted == FrameEmissions(results, canvasReady)
    ensures "no" !in emitted
  {
    emitted := [];
    if !canvasReady {
      return;
    }
    if results.multiHandLandmarks.Some? && results.multiHandedness.Some? {
      emitted := ReportHands(results.multiHandLandmarks.value, results.multiHandedness.value);
    }
  }

  /** The `for` loop of `onResults` over the hands of one frame, calling back once per classified hand. */
  method ReportHands(hands: seq<Landmarks>, handedness: seq<Handedness>) returns (emitted: seq<string>)
    requires HandsWellFormed(hands, handedness)
    ensures emitted == HandEmissions(hands, handedness)
  {
    ghost var cs := Classifications(hands, handedness);
    emitted := [];
    var i := 0;
    while i < |hands|
      invariant 0 <= i <= |hands|
      invariant emitted == Labels(cs[..i])
    {
      var labels := ReportHand(hands[i], handedness[i]);
      LabelsSnoc(cs, i);
      emitted := emitted + labels;
      i := i + 1;
    }
    assert cs[..|hands|] == cs;
  }

  lemma LabelsSnoc(cs: seq<Option<Gesture>>, i: nat)
    requires i < |cs|
    ensures Labels(cs[..i + 1]) == Labels(cs[..i]) + Label(cs[i])
  {
    assert cs[..i + 1] == cs[..i] + [cs[i]];
    LabelsAppend(cs[..i], [cs[i]]);
    assert [cs[i]][1..] == [];
  }

  /** The body of the loop for one hand: classify it and report the gesture, if any. */
  method ReportHand(hand: Landmarks, handedness: Handedness) returns (labels: seq<string>)
    requires |hand| >= LandmarkCount
    ensures labels == Label(Classify(hand, handedness.handLabel))
  {
    var detected := DetectGesture(hand, handedness.handLabel);
    if detected.Some? {
      labels := [Name(detected.value)];
    } else {
      labels := [];
    }
  }

  /** Handedness entries beyond the last hand are never read. */
  lemma HandEmissionsPrefix(hands: seq<Landmarks>, handedness: seq<Handedness>)
    requires HandsWellFormed(hands, handedness)
    ensures HandEmissions(hands, handedness) == HandEmissions(hands, handedness[..|hands|])
  {
    var short := handedness[..|hands|];
    assert Classifications(hands, handedness) == Classifications(hands, short) by {
      forall i | 0 <= i < |hands| ensures short[i] == handedness[i] {
      }
    }
  }

  /** The labels reported over a run of frames: `onResults` keeps no state between
      frames, so this is the concatenation of the per-frame reports. */
  function SessionEmissions(frames: seq<HandsResults>, canvasReady: bool): seq<string>
    requires forall i :: 0 <= i < |frames| ==> ResultsWellFormed(frames[i])
  {
    if frames == [] then [] else FrameEmissions(frames[0], canvasReady) + SessionEmissions(frames[1..], canvasReady)
  }

  function Repeat<T>(x: T, n: nat): (r: seq<T>)
    ensures |r| == n && forall i :: 0 <= i < n ==> r[i] == x
  {
    if n == 0 then [] else [x] + Repeat(x, n - 1)
  }

  /** `n` copies of `s`, one after the other. */
  function RepeatSeq<T>(s: seq<T>, n: nat): (r: seq<T>)
    ensures |r| == n * |s|
  {
    if n == 0 then [] else s + RepeatSeq(s, n - 1)
  }

  /** No stability window, deduplication or cooldown: the same frame seen n times
      reports its labels n times over. */
  lemma {:induction false} SessionRepeats(results: HandsResults, canvasReady: bool, n: nat)
    requires ResultsWellFormed(results)
    ensures SessionEmissions(Repeat(results, n), canvasReady) == RepeatSeq(FrameEmissions(results, canvasReady), n)
  {
    if n > 0 {
      assert Repeat(results, n)[1..] == Repeat(results, n - 1);
      SessionRepeats(results, canvasReady, n - 1);
    }
  }

  lemma {:induction false} RepeatSingle<T>(x: T, n: nat)
    ensures RepeatSeq([x], n) == Repeat(x, n)
  {
    if n > 0 {
      RepeatSingle(x, n - 1);
    }
  }

  /** One open palm in view: every frame reports "hello", so n frames report it n times. */
  lemma OpenPalmReportedEveryFrame(n: nat)
    ensures ResultsWellFormed(OpenPalmFrame())
    ensures FrameEmissions(OpenPalmFrame(), true) == ["hello"]
    ensures SessionEmissions(Repeat(OpenPalmFrame(), n), true) == Repeat("hello", n)
  {
    ReachHello();
    HandEmissionsSingle(Pose({4, 8, 12, 16, 20}, {}, 0.0), Handedness("Right"));
    SessionRepeats(OpenPalmFrame(), true, n);
    RepeatSingle("hello", n);
  }

  function OpenPalmFrame(): HandsResults {
    HandsResults(Some([Pose({4, 8, 12, 16, 20}, {}, 0.0)]), Some([Handedness("Right")]))
  }
}
