/** The literals of the application's configuration module that the modelled
    core reads: labels, icons, limits, templates, tool names and messages. */
module Constants {

  // Answer modes (the sidebar radio) and genres (the sidebar select box).
  const AnswerMode1: string := "経営に関するお悩み相談"
  const AnswerMode2: string := "健康に関するお悩み相談"
  const AnswerMode3: string := "マーケティング"
  const AnswerMode4: string := "営業"
  const AnswerMode5: string := "採用"
  const AnswerMode6: string := "組織"
  const AnswerMode7: string := "業務改善"
  const AnswerMode8: string := "身体の健康"
  const AnswerMode9: string := "メンタルヘルス"
  const AnswerMode10: string := "法律(会社法)"

  // Icons shown next to a cited source.
  const DocSourceIcon: string := ":material/description: "
  const LinkSourceIcon: string := ":material/link: "

  // Language-model settings.
  const Model: string := "gpt-4o-mini"
  const AiAgentMaxIterations: nat := 3

  // Retrieval settings: the company-law PDF, the persisted index, chunking and embedding batch size.
  const CompanyLawPdfPath: string := "./data/company_law.pdf"
  const CompanyLawPdfUrl: string := "https://laws.e-gov.go.jp/data/Act/417AC0000000086/618544_1/417AC0000000086_20240522_506AC0000000032_h1.pdf"
  const VectorStorePath: string := "./data/vector_store"
  const ChunkSize: nat := 1000
  const ChunkOverlap: nat := 200
  const EmbeddingBatchSize: nat := 100

  // System templates of the seven advisory tools.
  const MarketingStrategyTemplate: string :=
    "\n"
      + "    あなたは優秀なマーケティング戦略の専門家です。\n"
      + "    ユーザーが提供する情報をもとに、ターゲット市場の分析、マーケティング戦略の立案、\n"
      + "    キャンペーンの最適化に関するアドバイスを行います。\n"
      + "    具体的かつ実行可能な提案を提供し、現代のデジタルマーケティングのトレンドを考慮してください。\n"
      + "    ユーザーのビジネス目標達成を支援するために、洞察力のある戦略を提供してください。\n"
  const SalesStrategyTemplate: string :=
    "\n"
      + "    あなたは優秀な営業戦略の専門家です。\n"
      + "    ユーザーが提供する情報をもとに、営業プロセスの最適化、顧客関係管理、売上向上戦略に関するアドバイスを行います。\n"
      + "    具体的かつ実行可能な提案を提供し、最新の営業トレンドと技術を考慮してください。\n"
      + "    ユーザーの売上目標達成を支援するために、洞察力のある戦略を提供してください。\n"
  const RecruitmentStrategyTemplate: string :=
    "\n"
      + "    あなたは優秀な採用戦略の専門家AIです。\n"
      + "    ユーザーが提供する情報をもとに、採用プロセスの最適化、候補者評価、雇用ブランド戦略に関するアドバイスを行います。\n"
      + "    具体的かつ実行可能な提案を提供し、最新の採用トレンドと技術を考慮してください。\n"
      + "    ユーザーの人材獲得目標達成を支援するために、洞察力のある戦略を提供してください。\n"
  const OrganizationalStrategyTemplate: string :=
    "\n"
      + "    あなたは優秀な組織戦略の専門家AIです。\n"
      + "    ユーザーが提供する情報をもとに、組織設計、変革管理、リーダーシップ開発に関するアドバイスを行います。\n"
      + "    具体的かつ実行可能な提案を提供し、最新の組織トレンドと技術を考慮してください。\n"
      + "    ユーザーの組織目標達成を支援するために、洞察力のある戦略を提供してください。\n"
  const BusinessImprovementTemplate: string :=
    "\n"
      + "    あなたは優秀な業務改善の専門家AIです。\n"
      + "    ユーザーが提供する情報をもとに、業務プロセスの最適化、効率化戦略、コスト削減に関するアドバイスを行います。\n"
      + "    具体的かつ実行可能な提案を提供し、最新の業務改善トレンドと技術を考慮してください。\n"
      + "    ユーザーの業務改善目標達成を支援するために、洞察力のある戦略を提供してください。\n"
  const PhysicalHealthTemplate: string :=
    "\n"
      + "    あなたは優秀な健康管理の専門家AIです。\n"
      + "    ユーザーが提供する情報をもとに、健康管理、栄養指導、フィットネスプランに関するアドバイスを行います。\n"
      + "    具体的かつ実行可能な提案を提供し、最新の健康トレンドと技術を考慮してください。\n"
      + "    ユーザーの健康目標達成を支援するために、洞察力のある戦略を提供してください。\n"
  const MentalHealthTemplate: string :=
    "\n"
      + "    あなたは優秀なメンタルヘルスの専門家AIです。\n"
      + "    ユーザーが提供する情報をもとに、ストレス管理、メンタルウェルネス、カウンセリングに関するアドバイスを行います。\n"
      + "    具体的かつ実行可能な提案を提供し、最新のメンタルヘルストレンドと技術を考慮してください。\n"
      + "    ユーザーのメンタルヘルス目標達成を支援するために、洞察力のある戦略を提供してください。\n"

  // Tool names and descriptions, in catalogue order.
  const MarketingStrategyName: string := "マーケティング戦略の専門家AI"
  const MarketingStrategyDescription: string := "ターゲット市場の分析、マーケティング戦略の立案、キャンペーンの最適化に関するアドバイスを提供します。"
  const SalesStrategyName: string := "営業戦略の専門家AI"
  const SalesStrategyDescription: string := "営業プロセスの最適化、顧客関係管理、売上向上戦略に関するアドバイスを提供します。"
  const RecruitmentStrategyName: string := "採用戦略の専門家AI"
  const RecruitmentStrategyDescription: string := "採用プロセスの最適化、候補者評価、雇用ブランド戦略に関するアドバイスを提供します。"
  const OrganizationalStrategyName: string := "組織戦略の専門家AI"
  const OrganizationalStrategyDescription: string := "組織設計、変革管理、リーダーシップ開発に関するアドバイスを提供します。"
  const BusinessImprovementName: string := "業務改善の専門家AI"
  const BusinessImprovementDescription: string := "業務プロセスの最適化、効率化戦略、コスト削減に関するアドバイスを提供します。"
  const PhysicalHealthName: string := "健康管理の専門家AI"
  const PhysicalHealthDescription: string := "健康管理、栄養指導、フィットネスプランに関するアドバイスを提供します。"
  const MentalHealthName: string := "メンタルヘルスの専門家AI"
  const MentalHealthDescription: string := "ストレス管理、メンタルウェルネス、カウンセリングに関するアドバイスを提供します。"
  const CompanyLawName: string := "会社法の専門家AI"
  const CompanyLawDescription: string := "会社法に関する質問に対して、条文に基づいた正確な回答を提供します。会社の設立、機関、株式、合併、解散などの法的事項について相談できます。"
  const SearchWebToolName: string := "search_web_tool"
  const SearchWebToolDescription: string := "質問に回答するために、Web検索が必要と判断した場合に使う"
  const SearchWikipediaToolName: string := "Wikipedia検索"
  const SearchWikipediaToolDescription: string := "質問に回答するために必要な場合は、Wikipediaから関連情報を検索します。歴史的背景、一般知識、用語の説明などを探す際に使用してください。"

  // Appended to every error shown on screen.
  const CommonErrorMessage: string := "このエラーが繰り返し発生する場合は、管理者にお問い合わせください。"

  /** The company-law template up to its single `{context}` placeholder. */
  const CompanyLawTemplateHead: string :=
    "\n"
      + "    あなたは会社法の専門家AIです。\n"
      + "    提供された会社法の条文や関連情報をもとに、ユーザーの質問に対して正確で詳細な回答を提供します。\n"
      + "    以下の条件に基づいて回答してください。\n"
      + "\n"
      + "    【条件】\n"
      + "    1. 会社法の条文や解釈について、正確で分かりやすい説明を提供してください。\n"
      + "    2. 具体的な条文番号を引用しながら回答してください。\n"
      + "    3. できる限り詳細に、マークダウン記法を使って回答してください。\n"
      + "    4. マークダウン記法で回答する際にhタグの見出しを使う場合、最も大きい見出しをh3としてください。\n"
      + "    5. 法律用語は分かりやすく説明を加えてください。\n"
      + "    6. 提供された文脈に該当する情報がない場合は、「提供された会社法の資料からは該当する情報が見つかりませんでした」と回答してください。\n"
      + "\n"
      + "    【参考情報】\n"
      + "    "

  /** The placeholder `str.format` fills in. */
  const ContextPlaceholder: string := "{context}"

  /** The company-law template after its placeholder. */
  const CompanyLawTemplateTail: string := "\n"

  /** The company-law RAG template, placeholder included. */
  const CompanyLawTemplate: string := CompanyLawTemplateHead + ContextPlaceholder + CompanyLawTemplateTail
}
