/**
 * The classifications read off the defined centers: the type and its
 * strategy, the inner authority, the not-self theme named after the type,
 * and the profile formed from the two Sun lines.
 */
module Classify {
  import opened Wrappers
  import opened Text
  import opened Centers

  /** The motor centers, besides the Sacral, that can power the Throat. */
  const MOTOR_CENTERS: seq<Center> := [Ego, SolarPlexus, Root]

  /**
   * The two sets of labels: the Flask application answers in Chinese only,
   * the Netlify functions in English followed by the Chinese in brackets.
   */
  datatype Edition = App | Netlify

  datatype HdType = Reflector | ManifestingGenerator | Generator | Manifestor | Projector

  // ---------------------------------------------------------------------------
  // determine_type

  /** The simplified connection test: the Throat and at least one motor center are defined. */
  predicate ThroatToMotor(state: CenterState)
  {
    IsDefined(state, Throat) && exists m | m in MOTOR_CENTERS :: IsDefined(state, m)
  }

  /** The type the branches of `determine_type` select. */
  function TypeOf(state: CenterState): HdType
  {
    if !AnyDefined(state) then Reflector
    else if IsDefined(state, Sacral) then
      (if ThroatToMotor(state) then ManifestingGenerator else Generator)
    else if ThroatToMotor(state) then Manifestor
    else Projector
  }

  function TypeName(edition: Edition, t: HdType): string
  {
    match edition
    case App =>
      (match t
       case Reflector => "反映者"
       case ManifestingGenerator => "顯示型生產者"
       case Generator => "生產者"
       case Manifestor => "顯示者"
       case Projector => "投射者")
    case Netlify =>
      (match t
       case Reflector => "Reflector（反映者）"
       case ManifestingGenerator => "Manifesting Generator（顯示型生產者）"
       case Generator => "Generator（生產者）"
       case Manifestor => "Manifestor（顯示者）"
       case Projector => "Projector（投射者）")
  }

  function Strategy(edition: Edition, t: HdType): string
  {
    match edition
    case App =>
      (match t
       case Reflector => "等待月亮週期28天"
       case ManifestingGenerator => "先告知再行動，等待回應"
       case Generator => "等待回應"
       case Manifestor => "告知"
       case Projector => "等待被邀請")
    case Netlify =>
      (match t
       case Reflector => "Wait 28 Days（等待28天）"
       case ManifestingGenerator => "Wait to Respond & Inform（等待回應與告知）"
       case Generator => "Wait to Respond（等待回應）"
       case Manifestor => "Inform（告知）"
       case Projector => "Wait for Invitation（等待邀請）")
  }

  /** Nonzero cardinality of the defined-index set means some center is defined, and back. */
  lemma {:induction false} AnyDefinedCount(state: CenterState)
    ensures AnyDefined(state) <==> DefinedCount(state) > 0
  {
    var defined := set i | 0 <= i < |CENTERS| && IsDefined(state, CENTERS[i]);
    if AnyDefined(state) {
      var c :| c in state && state[c];
      assert CenterIndex(c) in defined;
    } else {
      assert defined == {};
    }
  }

  /**
   * The four-way classification: a Reflector has no defined center, and
   * otherwise the Sacral decides between the Generator pair and the
   * Manifestor/Projector pair while Throat-with-motor decides within each.
   */
  lemma {:induction false} TypeClassification(state: CenterState)
    ensures TypeOf(state) == Reflector <==> DefinedCount(state) == 0
    ensures var t := IsDefined(state, Throat) &&
                     (IsDefined(state, Ego) || IsDefined(state, SolarPlexus) || IsDefined(state, Root));
      DefinedCount(state) > 0 ==>
        && (TypeOf(state) == ManifestingGenerator <==> IsDefined(state, Sacral) && t)
        && (TypeOf(state) == Generator <==> IsDefined(state, Sacral) && !t)
        && (TypeOf(state) == Manifestor <==> !IsDefined(state, Sacral) && t)
        && (TypeOf(state) == Projector <==> !IsDefined(state, Sacral) && !t)
  {
    AnyDefinedCount(state);
    assert ThroatToMotor(state) <==>
      IsDefined(state, Throat) && (IsDefined(state, Ego) || IsDefined(state, SolarPlexus) || IsDefined(state, Root)) by {
      assert MOTOR_CENTERS[0] == Ego && MOTOR_CENTERS[1] == SolarPlexus && MOTOR_CENTERS[2] == Root;
    }
  }

  /**
   * The `for motor in MOTOR_CENTERS` scan, stopping at the first defined
   * motor center.
   */
  method MotorScan(state: CenterState) returns (connected: bool)
    ensures connected <==> exists m | m in MOTOR_CENTERS :: IsDefined(state, m)
  {
    connected := false;
    var k := 0;
    while k < |MOTOR_CENTERS|
      invariant 0 <= k <= |MOTOR_CENTERS|
      invariant forall j | 0 <= j < k :: !IsDefined(state, MOTOR_CENTERS[j])
    {
      if IsDefined(state, MOTOR_CENTERS[k]) {
        connected := true;
        break;
      }
      k := k + 1;
    }
  }

  /**
   * `determine_type`: the type name and strategy, in the labels of the
   * given edition, of the type the center state classifies as.
   */
  method DetermineType(state: CenterState, edition: Edition) returns (name: string, strategy: string)
    ensures name == TypeName(edition, TypeOf(state)) && strategy == Strategy(edition, TypeOf(state))
  {
    var sacralDefined := IsDefined(state, Sacral);
    var throatDefined := IsDefined(state, Throat);
    if !AnyDefined(state) {
      return TypeName(edition, Reflector), Strategy(edition, Reflector);
    }
    var throatToMotor := false;
    if throatDefined {
      throatToMotor := MotorScan(state);
    }
    var t := if sacralDefined then (if throatToMotor then ManifestingGenerator else Generator)
             else (if throatToMotor then Manifestor else Projector);
    name, strategy := TypeName(edition, t), Strategy(edition, t);
  }

  // ---------------------------------------------------------------------------
  // determine_authority

  datatype Authority = Emotional | SacralResponse | Splenic | EgoWill | SelfProjected | Environmental

  /** The priority chain of `determine_authority`. */
  function AuthorityOf(state: CenterState): Authority
  {
    if IsDefined(state, SolarPlexus) then Emotional
    else if IsDefined(state, Sacral) then SacralResponse
    else if IsDefined(state, Spleen) then Splenic
    else if IsDefined(state, Ego) then EgoWill
    else if IsDefined(state, G) then SelfProjected
    else Environmental
  }

  /** The centers that give an inner authority, strongest first. */
  const AUTHORITY_ORDER: seq<Center> := [SolarPlexus, Sacral, Spleen, Ego, G]

  /** The center an authority is named after; the environment has none. */
  function AuthorityCenter(a: Authority): Option<Center>
  {
    match a
    case Emotional => Some(SolarPlexus)
    case SacralResponse => Some(Sacral)
    case Splenic => Some(Spleen)
    case EgoWill => Some(Ego)
    case SelfProjected => Some(G)
    case Environmental => None
  }

  /** The first center of `order` that the state defines. */
  function FirstDefined(state: CenterState, order: seq<Center>): (r: Option<Center>)
    ensures r.Some? ==> r.value in order && IsDefined(state, r.value)
    ensures r.None? <==> forall c | c in order :: !IsDefined(state, c)
  {
    if order == [] then None
    else if IsDefined(state, order[0]) then Some(order[0])
    else FirstDefined(state, order[1..])
  }

  /**
   * The authority is named after the first defined center in the order
   * Solar Plexus, Sacral, Spleen, Ego, G, and is environmental when none
   * of them is defined.
   */
  lemma {:induction false} AuthorityIsFirstDefined(state: CenterState)
    ensures AuthorityCenter(AuthorityOf(state)) == FirstDefined(state, AUTHORITY_ORDER)
    ensures AuthorityOf(state) == Environmental <==> forall c | c in AUTHORITY_ORDER :: !IsDefined(state, c)
  {
    var order := AUTHORITY_ORDER;
    assert order[1..] == [Sacral, Spleen, Ego, G];
    assert [Sacral, Spleen, Ego, G][1..] == [Spleen, Ego, G];
    assert [Spleen, Ego, G][1..] == [Ego, G];
    assert [Ego, G][1..] == [G];
    assert [G][1..] == [];
    assert FirstDefined(state, [G]) == if IsDefined(state, G) then Some(G) else None;
    assert FirstDefined(state, [Ego, G]) == if IsDefined(state, Ego) then Some(Ego) else FirstDefined(state, [G]);
    assert FirstDefined(state, [Spleen, Ego, G]) ==
      if IsDefined(state, Spleen) then Some(Spleen) else FirstDefined(state, [Ego, G]);
    assert FirstDefined(state, [Sacral, Spleen, Ego, G]) ==
      if IsDefined(state, Sacral) then Some(Sacral) else FirstDefined(state, [Spleen, Ego, G]);
  }

  /** A Reflector, with no center defined, always has the environmental authority. */
  lemma {:induction false} ReflectorIsEnvironmental(state: CenterState)
    requires TypeOf(state) == Reflector
    ensures AuthorityOf(state) == Environmental
  {
    assert !AnyDefined(state);
  }

  function AuthorityText(edition: Edition, a: Authority): string
  {
    match edition
    case App =>
      (match a
       case Emotional => "情緒權威：等待情緒波動平息後再做決定"
       case SacralResponse => "薦骨權威：信任身體的薦骨回應（「嗯嗯」或「嗯哼」）"
       case Splenic => "脾中心權威：信任當下的直覺和身體感受"
       case EgoWill => "自我/意志力權威：從意志力中心獲得力量和承諾"
       case SelfProjected => "自我投射權威：通過表達和傾聽自己來獲得清晰度"
       case Environmental => "環境/月球權威：需要等待28天的月球週期或尋求環境指引")
    case Netlify =>
      (match a
       case Emotional => "Emotional Authority（情緒權威）：等待情緒波動平息後再做決定"
       case SacralResponse => "Sacral Authority（薦骨權威）：信任身體的薦骨回應（「嗯嗯」或「嗯哼」）"
       case Splenic => "Splenic Authority（脾中心權威）：信任當下的直覺和身體感受"
       case EgoWill => "Ego Authority（自我/意志力權威）：從意志力中心獲得力量和承諾"
       case SelfProjected => "Self-Projected Authority（自我投射權威）：通過表達和傾聽自己來獲得清晰度"
       case Environmental => "Environmental/Lunar Authority（環境/月球權威）：需要等待28天的月球週期或尋求環境指引")
  }

  /** `determine_authority`: the text of the authority, in the edition's labels. */
  function DetermineAuthority(state: CenterState, edition: Edition): string
  {
    AuthorityText(edition, AuthorityOf(state))
  }

  // ---------------------------------------------------------------------------
  // get_not_self_theme

  /** `get_not_self_theme`: substring tests on the type name, in order. */
  function NotSelfTheme(typeName: string): (theme: string)
    ensures theme in ["失望", "憤怒", "苦澀", "挫敗", "未知"]
  {
    if Contains(typeName, "反映者") || Contains(typeName, "Reflector") then "失望"
    else if Contains(typeName, "顯示者") && !Contains(typeName, "生產者") then "憤怒"
    else if Contains(typeName, "投射者") || Contains(typeName, "Projector") then "苦澀"
    else if Contains(typeName, "生產者") || Contains(typeName, "Generator") then "挫敗"
    else "未知"
  }

  /** The not-self theme each type stands for. */
  function ThemeOf(t: HdType): string
  {
    match t
    case Reflector => "失望"
    case Manifestor => "憤怒"
    case Projector => "苦澀"
    case Generator => "挫敗"
    case ManifestingGenerator => "挫敗"
  }

  /** A name lacking the first character of each of the four tested words contains none of them. */
  lemma NotReflectorOrProjector(name: string)
    requires '反' !in name && 'R' !in name && '投' !in name && 'P' !in name
    ensures !Contains(name, "反映者") && !Contains(name, "Reflector")
    ensures !Contains(name, "投射者") && !Contains(name, "Projector")
  {
    AbsentChar(name, "反映者", 0);
    AbsentChar(name, "Reflector", 0);
    AbsentChar(name, "投射者", 0);
    AbsentChar(name, "Projector", 0);
  }

  // The steps of NotSelfOfType, one type name at a time: each is a fixed
  // text, and keeping one name per lemma keeps each proof small.

  lemma NotSelfReflectorApp(name: string)
    requires name == "反映者"
    ensures NotSelfTheme(name) == "失望"
  {
    ContainsAt(name, "反映者", 0);
  }

  lemma NotSelfReflectorNetlify(name: string)
    requires name == "Reflector（反映者）"
    ensures NotSelfTheme(name) == "失望"
  {
    ContainsAt(name, "Reflector", 0);
  }

  lemma NotSelfMgApp(name: string)
    requires name == "顯示型生產者"
    ensures NotSelfTheme(name) == "挫敗"
  {
    assert '反' !in name && 'R' !in name && 'P' !in name && '投' !in name;
    NotReflectorOrProjector(name);
    NoWindow(name, "顯示者");
    ContainsAt(name, "生產者", 3);
  }

  /** The Manifesting Generator's name does not contain the Manifestor's. */
  lemma MgNotManifestor(name: string)
    requires name == "Manifesting Generator（顯示型生產者）"
    ensures !Contains(name, "顯示者")
  {
    NoWindow(name, "顯示者");
  }

  /** The Netlify Manifesting Generator name lacks the Reflector's first letters, */
  lemma MgNetlifyNoReflectorLetters(name: string)
    requires name == "Manifesting Generator（顯示型生產者）"
    ensures '反' !in name && 'R' !in name
  {
  }

  /** and the Projector's. */
  lemma MgNetlifyNoProjectorLetters(name: string)
    requires name == "Manifesting Generator（顯示型生產者）"
    ensures 'P' !in name && '投' !in name
  {
  }

  lemma NotSelfMgNetlify(name: string)
    requires name == "Manifesting Generator（顯示型生產者）"
    ensures NotSelfTheme(name) == "挫敗"
  {
    MgNetlifyNoReflectorLetters(name);
    MgNetlifyNoProjectorLetters(name);
    NotReflectorOrProjector(name);
    MgNotManifestor(name);
    ContainsAt(name, "生產者", 25);
  }

  lemma NotSelfGeneratorApp(name: string)
    requires name == "生產者"
    ensures NotSelfTheme(name) == "挫敗"
  {
    assert '反' !in name && 'R' !in name && 'P' !in name && '投' !in name && '顯' !in name;
    NotReflectorOrProjector(name);
    AbsentChar(name, "顯示者", 0);
    ContainsAt(name, "生產者", 0);
  }

  lemma NotSelfGeneratorNetlify(name: string)
    requires name == "Generator（生產者）"
    ensures NotSelfTheme(name) == "挫敗"
  {
    assert '反' !in name && 'R' !in name && 'P' !in name && '投' !in name && '顯' !in name;
    NotReflectorOrProjector(name);
    AbsentChar(name, "顯示者", 0);
    ContainsAt(name, "生產者", 10);
  }

  lemma NotSelfManifestorApp(name: string)
    requires name == "顯示者"
    ensures NotSelfTheme(name) == "憤怒"
  {
    assert '反' !in name && 'R' !in name && 'P' !in name && '投' !in name && '生' !in name;
    NotReflectorOrProjector(name);
    AbsentChar(name, "生產者", 0);
    ContainsAt(name, "顯示者", 0);
  }

  lemma NotSelfManifestorNetlify(name: string)
    requires name == "Manifestor（顯示者）"
    ensures NotSelfTheme(name) == "憤怒"
  {
    assert '反' !in name && 'R' !in name && 'P' !in name && '投' !in name && '生' !in name;
    NotReflectorOrProjector(name);
    AbsentChar(name, "生產者", 0);
    ContainsAt(name, "顯示者", 11);
  }

  lemma NotSelfProjectorApp(name: string)
    requires name == "投射者"
    ensures NotSelfTheme(name) == "苦澀"
  {
    assert '反' !in name && 'R' !in name && '顯' !in name;
    AbsentChar(name, "反映者", 0);
    AbsentChar(name, "Reflector", 0);
    AbsentChar(name, "顯示者", 0);
    ContainsAt(name, "投射者", 0);
  }

  lemma NotSelfProjectorNetlify(name: string)
    requires name == "Projector（投射者）"
    ensures NotSelfTheme(name) == "苦澀"
  {
    assert '反' !in name && 'R' !in name && '顯' !in name;
    AbsentChar(name, "反映者", 0);
    AbsentChar(name, "Reflector", 0);
    AbsentChar(name, "顯示者", 0);
    ContainsAt(name, "Projector", 0);
  }

  /**
   * The substring tests give every type name, in either edition, the theme
   * of its type; in particular the Manifesting Generator's name does not
   * contain the Manifestor's.
   */
  lemma {:induction false} NotSelfOfType(edition: Edition, t: HdType)
    ensures NotSelfTheme(TypeName(edition, t)) == ThemeOf(t)
    ensures t == ManifestingGenerator ==> !Contains(TypeName(edition, t), "顯示者")
  {
    var name := TypeName(edition, t);
    match t
    case Reflector =>
      if edition == App { NotSelfReflectorApp(name); } else { NotSelfReflectorNetlify(name); }
    case ManifestingGenerator =>
      if edition == App {
        NotSelfMgApp(name);
        NoWindow(name, "顯示者");
      } else {
        NotSelfMgNetlify(name);
        MgNotManifestor(name);
      }
    case Generator =>
      if edition == App { NotSelfGeneratorApp(name); } else { NotSelfGeneratorNetlify(name); }
    case Manifestor =>
      if edition == App { NotSelfManifestorApp(name); } else { NotSelfManifestorNetlify(name); }
    case Projector =>
      if edition == App { NotSelfProjectorApp(name); } else { NotSelfProjectorNetlify(name); }
  }

  // ---------------------------------------------------------------------------
  // calculate_profile

  /** `calculate_profile`: f"{personality_sun_line}/{design_sun_line}". */
  function CalculateProfile(personalitySunLine: int, designSunLine: int): string
  {
    IntToString(personalitySunLine) + "/" + IntToString(designSunLine)
  }

  /** The profile splits at its one slash back into the two lines. */
  lemma {:induction false} ProfileRoundTrip(personalitySunLine: int, designSunLine: int)
    requires FitsStrDigits(personalitySunLine) && FitsStrDigits(designSunLine)
    ensures var parts := Split(CalculateProfile(personalitySunLine, designSunLine), '/');
      |parts| == 2 && PyInt(parts[0]) == Some(personalitySunLine) && PyInt(parts[1]) == Some(designSunLine)
  {
    var a, b := IntToString(personalitySunLine), IntToString(designSunLine);
    IntToStringChars(personalitySunLine);
    IntToStringChars(designSunLine);
    assert a + "/" + b == a + ['/'] + b;
    SplitPair(a, b, '/');
    PyIntOfIntToString(personalitySunLine);
    PyIntOfIntToString(designSunLine);
  }
}
