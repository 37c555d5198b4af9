/**
 * The interface strings of lib/translations.ts: an English and a Chinese table
 * over the same keys, and the lookup that falls back from the requested
 * language to English and from English to the key itself.
 */
module Translations {
  import opened Common

  /** The two interface languages, 'en' and 'zh'. */
  datatype Language = En | Zh

  const EnTable: map<string, string> := map[
    "metaTitle" := "Pillmotion - Let Creativity Flow Freely",
    "metaDescription" := "From inspiration to final film, AI generates scripts, storyboards, characters and scenes with one click. Supporting real-time collaboration and copyright certification, making creation boundless.",
    "companyName" := "Pillmotion",
    "heroTitle" := "Let Creativity Flow Freely",
    "heroDescription" := "From inspiration to final film, AI generates scripts, storyboards, characters and scenes with one click. Supporting real-time collaboration and copyright certification, making creation boundless.",
    "getStarted" := "Get Started",
    "learnMore" := "Learn More",
    "ourServices" := "Core Features",
    "aiNewsTitle" := "Script Generation",
    "aiNewsDesc" := "Input your outline, AI automatically generates draft scripts with real-time optimization and collaborative editing",
    "aiResearchTitle" := "Character & Scene Design",
    "aiResearchDesc" := "AI generates 2D/3D characters and scenes based on text descriptions, supporting style transfer",
    "aiTranslationTitle" := "Storyboard Generation",
    "aiTranslationDesc" := "Automatically breaks down scripts into storyboards with camera angle and movement suggestions",
    "aiProgrammingTitle" := "AIGC Content Library",
    "aiProgrammingDesc" := "Open sharing of scripts, character models, sound effects and other assets, supporting trading and sharing",
    "aiVoiceTitle" := "Collaboration Management",
    "aiVoiceDesc" := "Project task allocation, progress tracking, and multi-person collaboration to ensure timely completion",
    "aiNavigatorTitle" := "Copyright Protection",
    "aiNavigatorDesc" := "Blockchain-based certification ensures copyright ownership and compliance",
    "ourProducts" := "Transparent Pricing",
    "bestValue" := "Best Value",
    "buyNow" := "Buy Now",
    "basicPlan" := "Basic",
    "proPlan" := "Pro",
    "maxPlan" := "Max",
    "perMonth" := "/ month",
    "basicPlanCredits" := "1500 Credits / month",
    "proPlanCredits" := "4000 Credits / month",
    "maxPlanCredits" := "10000 Credits / month",
    "proMoreCredits" := "33% more credits",
    "maxMoreCredits" := "67% more credits",
    "home" := "Home",
    "features" := "Features",
    "pricing" := "Pricing",
    "footerDesc" := "AI platform for boundless creativity",
    "footerFollow" := "Follow Us",
    "footerRights" := "All rights reserved."
  ]

  const ZhTable: map<string, string> := map[
    "metaTitle" := "药丸运动 - 让创意自由流动",
    "metaDescription" := "从灵感到成片，AI一键生成剧本、分镜、角色与场景，支持多人实时协作与版权存证，让创作无边界",
    "companyName" := "药丸运动",
    "heroTitle" := "让创意自由流动",
    "heroDescription" := "从灵感到成片，AI一键生成剧本、分镜、角色与场景，支持多人实时协作与版权存证，让创作无边界",
    "getStarted" := "开始使用",
    "learnMore" := "了解更多",
    "ourServices" := "核心功能",
    "aiNewsTitle" := "剧本生成",
    "aiNewsDesc" := "输入大纲，AI自动生成剧本初稿，并支持实时优化和多人协作编辑",
    "aiResearchTitle" := "角色与场景设计",
    "aiResearchDesc" := "AI根据文字描述生成2D/3D角色和场景，支持风格迁移",
    "aiTranslationTitle" := "分镜与故事板生成",
    "aiTranslationDesc" := "将剧本自动拆解为分镜脚本，生成包含镜头角度和运镜建议的动态故事板",
    "aiProgrammingTitle" := "AIGC素材库",
    "aiProgrammingDesc" := "开放共享剧本、角色模型、音效等素材，支持交易与共享",
    "aiVoiceTitle" := "协作管理",
    "aiVoiceDesc" := "项目任务分配、进度追踪、多人协作，确保项目按期完成",
    "aiNavigatorTitle" := "版权保护与合规性",
    "aiNavigatorDesc" := "通过区块链存证，确保创作内容的版权归属，保障合规性",
    "ourProducts" := "透明定价",
    "bestValue" := "最受欢迎",
    "buyNow" := "立即购买",
    "basicPlan" := "基础版",
    "proPlan" := "专业版",
    "maxPlan" := "至尊版",
    "perMonth" := "/月",
    "basicPlanCredits" := "1500积分/月",
    "proPlanCredits" := "4000积分/月",
    "maxPlanCredits" := "10000积分/月",
    "proMoreCredits" := "多33%积分",
    "maxMoreCredits" := "多67%积分",
    "home" := "首页",
    "features" := "功能",
    "pricing" := "定价",
    "footerDesc" := "让创意自由流动的AI平台",
    "footerFollow" := "关注我们",
    "footerRights" := "版权所有"
  ]

  function Table(language: Language): map<string, string>
  {
    match language
    case En => EnTable
    case Zh => ZhTable
  }

  /**
   * The properties every object literal inherits from `Object.prototype`. Reading
   * one of them from a table that lacks it yields the inherited member (a
   * function, or the prototype object itself for `__proto__`), which is truthy.
   */
  const PROTOTYPE_NAMES: set<string> := {
    "constructor", "hasOwnProperty", "isPrototypeOf", "propertyIsEnumerable",
    "toLocaleString", "toString", "valueOf", "__defineGetter__", "__defineSetter__",
    "__lookupGetter__", "__lookupSetter__", "__proto__"}

  /** A value `getTranslation` can yield: a string, or the inherited member named by the key. */
  datatype Value = Str(text: string) | Inherited(name: string)

  /** `table[key]`: the table's own entry, else an inherited member, else `undefined` (None). */
  function Read(table: map<string, string>, key: string): (v: Option<Value>)
    ensures key in table ==> v == Some(Str(table[key]))
    ensures key !in table ==> (v.Some? <==> key in PROTOTYPE_NAMES)
    ensures key !in table && key in PROTOTYPE_NAMES ==> v == Some(Inherited(key))
    ensures v.Some? && v.value.Inherited? ==> key !in table && v.value.name == key
  {
    if key in table then Some(Str(table[key]))
    else if key in PROTOTYPE_NAMES then Some(Inherited(key))
    else None
  }

  /** Whether `||` keeps a value: `undefined` and "" are falsy, any member is truthy. */
  predicate Truthy(v: Option<Value>)
  {
    v.Some? && (v.value.Inherited? || v.value.text != "")
  }

  /** `TranslationKey`: the keys of the English table. */
  predicate IsTranslationKey(key: string)
  {
    key in EnTable
  }

  /**
   * The `||` chain of `getTranslation` over any two tables: the own table's
   * non-empty entry, else the English table's, else the key itself; a key
   * that `Object.prototype` has yields the inherited member when the first
   * table that is read lacks it.
   */
  function Lookup(own: map<string, string>, english: map<string, string>, key: string): (r: Value)
    ensures key in own && own[key] != "" ==> r == Str(own[key])
    ensures key !in own && key in PROTOTYPE_NAMES ==> r == Inherited(key)
    ensures ((key in own && own[key] == "") || (key !in own && key !in PROTOTYPE_NAMES)) ==>
      key in english && english[key] != "" ==> r == Str(english[key])
    ensures (key !in own || own[key] == "") && (key !in english || english[key] == "") ==>
      (key in PROTOTYPE_NAMES ==> key in own && key in english) ==> r == Str(key)
    ensures key in own && own[key] == "" && key !in english && key in PROTOTYPE_NAMES ==> r == Inherited(key)
    ensures r.Inherited? ==> r.name == key && key in PROTOTYPE_NAMES
    ensures r.Str? && r.text != key ==> (key in own && r.text == own[key]) || (key in english && r.text == english[key])
  {
    var first := Read(own, key);
    if Truthy(first) then first.value
    else
      var second := Read(english, key);
      if Truthy(second) then second.value else Str(key)
  }

  /** `getTranslation(language, key)`. */
  function GetTranslation(language: Language, key: string): (r: Value)
    ensures r.Inherited? ==> r.name == key && key in PROTOTYPE_NAMES
    ensures r.Str? && r.text != key ==>
      (key in Table(language) && r.text == Table(language)[key]) || (key in EnTable && r.text == EnTable[key])
  {
    Lookup(Table(language), EnTable, key)
  }

  /** Every English key has a Chinese entry. */
  lemma EnKeysInZh()
    ensures forall key :: key in EnTable ==> key in ZhTable
  {
  }

  /** Every Chinese key has an English entry. */
  lemma ZhKeysInEn()
    ensures forall key :: key in ZhTable ==> key in EnTable
  {
  }

  /** Both tables define the same keys. */
  lemma TablesAgree()
    ensures EnTable.Keys == ZhTable.Keys
  {
    EnKeysInZh();
    ZhKeysInEn();
  }

  /** No English entry is empty or equal to its key. */
  lemma EnEntriesTranslate()
    ensures forall key :: key in EnTable ==> EnTable[key] != "" && EnTable[key] != key
  {
  }

  /** No Chinese entry is empty or equal to its key. */
  lemma ZhEntriesTranslate()
    ensures forall key :: key in ZhTable ==> ZhTable[key] != "" && ZhTable[key] != key
  {
  }

  /** For a `TranslationKey` the lookup yields the table's own entry, in either language, never the key. */
  lemma KnownKeyTranslates(language: Language, key: string)
    requires IsTranslationKey(key)
    ensures key in Table(language) && GetTranslation(language, key) == Str(Table(language)[key])
    ensures GetTranslation(language, key) != Str(key)
  {
    TablesAgree();
    EnEntriesTranslate();
    ZhEntriesTranslate();
  }

  /** A string that is neither a key nor an inherited name (a caller can pass one at run time) comes back unchanged. */
  lemma UnknownKeyEchoes(language: Language, key: string)
    requires !IsTranslationKey(key) && key !in PROTOTYPE_NAMES
    ensures GetTranslation(language, key) == Str(key)
  {
    TablesAgree();
  }

  /** An inherited name that is not a key yields the inherited member, not the key. */
  lemma PrototypeNameYieldsMember(language: Language, key: string)
    requires !IsTranslationKey(key) && key in PROTOTYPE_NAMES
    ensures GetTranslation(language, key) == Inherited(key)
  {
    TablesAgree();
  }

  /** `getTranslation(language, "toString")` is `Object.prototype.toString`, not "toString". */
  lemma ToStringYieldsMember(language: Language)
    ensures GetTranslation(language, "toString") == Inherited("toString")
  {
    assert !IsTranslationKey("toString");
    PrototypeNameYieldsMember(language, "toString");
  }
}
