/** The records and constant tables of Floreboard/Models.swift. */
module Models {
  import opened Prelude

  datatype FlowerCategory = Main | Filler | Foliage {
    function RawValue(): string {
      match this
      case Main => "main"
      case Filler => "filler"
      case Foliage => "foliage"
    }
  }

  datatype OccasionType =
    Wedding | Birthday | Comfort | Home | Graduation | Opening | Apology | Valentine | MotherDay | OtherOccasion

  datatype RecipientType = Partner | Parent | Friend | Elder | SelfRecipient | Colleague | Child

  datatype StyleType = Romantic | Fresh | Vintage | Passionate | Minimalist | Wild | Elegant

  datatype ColorPaletteType = Warm | Cool | Pastel | Vibrant | Monochrome | AutoPalette

  datatype FormatType = Bouquet | Vase | Box | Basket

  datatype ImageStatus = ImagePending | ImageSucceeded | ImageFailed

  /** A saved design is either a draft or has been executed. */
  datatype DesignStatus = Draft | Completed

  /** One inventory record. Prices are `Double` in the app and `real` here. */
  datatype FlowerType = FlowerType(
    id: string,
    name: string,
    color: string,
    quantity: int,
    initialStock: int,
    category: FlowerCategory,
    unitCost: real,
    retailPrice: real,
    meaning: Option<string>,
    totalUsed: Option<int>,
    cultureTags: Option<seq<string>>,
    createdAt: Option<real>,
    updatedAt: Option<real>,
    syncId: Option<string>,
    syncVersion: Option<int>,
    syncedAt: Option<real>)

  /** `FlowerType.init`: copies its arguments; every other field starts out nil. */
  function NewFlower(
    id: string, name: string, color: string, quantity: int, initialStock: int,
    category: FlowerCategory, unitCost: real, retailPrice: real, meaning: Option<string>): (f: FlowerType)
    ensures f.id == id && f.name == name && f.color == color && f.quantity == quantity
    ensures f.initialStock == initialStock && f.category == category
    ensures f.unitCost == unitCost && f.retailPrice == retailPrice && f.meaning == meaning
    ensures f.totalUsed.None? && f.cultureTags.None? && f.createdAt.None? && f.updatedAt.None?
    ensures f.syncId.None? && f.syncVersion.None? && f.syncedAt.None?
  {
    FlowerType(id, name, color, quantity, initialStock, category, unitCost, retailPrice, meaning,
               None, None, None, None, None, None, None)
  }

  datatype DesignRequest = DesignRequest(
    id: string,
    occasion: OccasionType,
    recipient: RecipientType,
    style: StyleType,
    colorPalette: Option<ColorPaletteType>,
    format: Option<FormatType>,
    budget: Option<real>,
    requirements: Option<string>,
    school: Option<string>,
    technique: Option<string>,
    designMode: Option<string>,
    proportionRule: Option<string>,
    seasonality: Option<string>,
    culturalContext: Option<string>,
    scalePreference: Option<string>,
    moodPreference: Option<string>,
    formPreference: Option<string>,
    backgroundStyle: Option<string>)

  /** `DesignRequest(id:)` with its default occasion, recipient and style; every optional field is nil. */
  function DefaultRequest(id: string): (r: DesignRequest)
    ensures r.id == id && r.occasion == Home && r.recipient == SelfRecipient && r.style == Fresh
    ensures r.colorPalette.None? && r.format.None? && r.budget.None? && r.requirements.None?
    ensures r.school.None? && r.technique.None? && r.designMode.None? && r.proportionRule.None?
    ensures r.seasonality.None? && r.culturalContext.None? && r.scalePreference.None?
    ensures r.moodPreference.None? && r.formPreference.None? && r.backgroundStyle.None?
  {
    DesignRequest(id, Home, SelfRecipient, Fresh, None, None, None, None,
                  None, None, None, None, None, None, None, None, None, None)
  }

  /** One line item of a plan: a flower name (matched against the inventory later) and a stem count. */
  datatype DesignFlowerItem = DesignFlowerItem(
    flowerName: string,
    count: int,
    reason: Option<string>,
    unitCost: Option<real>)
  {
    /** `id` is the item's name, so items with the same name share an id. */
    function Id(): (r: string)
      ensures r == flowerName
    {
      flowerName
    }
  }

  lemma SameNameSameId(a: DesignFlowerItem, b: DesignFlowerItem)
    ensures a.Id() == b.Id() <==> a.flowerName == b.flowerName
  {
  }

  datatype DesignResult = DesignResult(
    id: string,
    requestId: string,
    title: string,
    description: string,
    flowerList: seq<DesignFlowerItem>,
    reasoning: Option<string>,
    steps: seq<string>,
    imageUrl: Option<string>,
    imageTaskId: Option<string>,
    imageStatus: Option<ImageStatus>,
    imageError: Option<string>,
    imagePrompt: Option<string>,
    meaningText: string,
    totalCost: real,
    profit: real,
    profitMargin: real,
    createdAt: real,
    requirements: Option<string>,
    rating: Option<int>,
    feedback: Option<string>,
    status: DesignStatus,
    executedAt: Option<real>,
    syncId: Option<string>,
    syncVersion: Option<int>,
    syncedAt: Option<real>)

  datatype ApiConfig = ApiConfig(
    id: Option<string>,
    apiKey: string,
    endpoint: string,
    textModel: string,
    visionModel: string,
    imageModel: string,
    imageEndpoint: Option<string>,
    budget: real,
    alertThreshold: int,
    lowStockThreshold: int,
    updatedAt: Option<real>)

  /** `ApiConfig.default`: no key, the Aliyun compatible endpoint and its models. */
  function DefaultConfig(): (c: ApiConfig)
    ensures c.apiKey == "" && c.imageModel == "wanx-v1" && c.imageEndpoint.None?
    ensures c.endpoint == "https://dashscope.aliyuncs.com/compatible-mode/v1"
    ensures c.textModel == "qwen-plus" && c.visionModel == "qwen-vl-max"
    ensures c.budget == 500.0 && c.alertThreshold == 5 && c.lowStockThreshold == 10
    ensures c.id.None? && c.updatedAt.None?
  {
    ApiConfig(None, "", "https://dashscope.aliyuncs.com/compatible-mode/v1", "qwen-plus", "qwen-vl-max",
              "wanx-v1", None, 500.0, 5, 10, None)
  }

  datatype Tenant = Tenant(id: string, name: string)

  datatype AIProvider = AIProvider(
    id: string,
    name: string,
    endpoint: string,
    models: seq<string>,
    visionModels: seq<string>,
    imageEndpoint: string,
    imageModels: seq<string>)

  /** `AIProvider.all`: five presets with distinct ids and endpoints; "custom" is last and empty. */
  function Providers(): (all: seq<AIProvider>)
    ensures |all| == 5
    ensures forall i, j :: 0 <= i < j < |all| ==> all[i].id != all[j].id
    ensures forall i, j :: 0 <= i < j < |all| - 1 ==> all[i].endpoint != all[j].endpoint
    ensures all[4].id == "custom" && all[4].endpoint == "" && all[4].imageEndpoint == ""
    ensures all[4].models == [] && all[4].visionModels == [] && all[4].imageModels == []
    ensures forall i :: 0 <= i < 4 ==> all[i].endpoint != ""
  {
    [
      AIProvider("aliyun", "Aliyun (Qwen/Wanx)", "https://dashscope.aliyuncs.com/compatible-mode/v1",
                 ["qwen-plus", "qwen-max", "qwen-turbo"], ["qwen-vl-max", "qwen-vl-plus"],
                 "https://dashscope.aliyuncs.com", ["wanx-v1", "wan2.1-t2i-turbo"]),
      AIProvider("openrouter", "OpenRouter (Claude/Gemini)", "https://openrouter.ai/api/v1",
                 ["anthropic/claude-3.5-sonnet", "google/gemini-pro", "openai/gpt-4o"],
                 ["google/gemini-1.5-pro", "openai/gpt-4o", "anthropic/claude-3.5-sonnet"],
                 "https://openrouter.ai/api/v1", ["google/gemini-3-pro-image-preview"]),
      AIProvider("deepseek", "DeepSeek", "https://api.deepseek.com",
                 ["deepseek-chat", "deepseek-coder"], [], "", []),
      AIProvider("openai", "OpenAI (Official)", "https://api.openai.com/v1",
                 ["gpt-4o", "gpt-4-turbo", "gpt-3.5-turbo"], ["gpt-4o", "gpt-4-turbo"],
                 "https://api.openai.com/v1", ["dall-e-3", "dall-e-2"]),
      AIProvider("custom", "Custom / Other", "", [], [], "", [])
    ]
  }

  /** `FlowerType.mocks`, given the four generated ids. */
  function Mocks(ids: seq<string>): (m: seq<FlowerType>)
    requires |ids| == 4
    ensures |m| == 4
    ensures forall i :: 0 <= i < 4 ==> m[i].id == ids[i] && m[i].totalUsed.None? && m[i].cultureTags.None?
    ensures m[0].name == "Red Rose" && m[0].quantity == 50
  {
    [
      NewFlower(ids[0], "Red Rose", "Red", 50, 100, Main, 5.0, 15.0, Some("Love")),
      NewFlower(ids[1], "White Lily", "White", 30, 50, Main, 8.0, 20.0, Some("Purity")),
      NewFlower(ids[2], "Baby's Breath", "White", 200, 200, Filler, 1.0, 3.0, None),
      NewFlower(ids[3], "Eucalyptus", "Green", 80, 100, Foliage, 2.0, 5.0, None)
    ]
  }

  /** `DesignStatus` has exactly two cases. */
  lemma DesignStatusCases(s: DesignStatus)
    ensures s == Draft || s == Completed
    ensures Draft != Completed
  {
  }
}
