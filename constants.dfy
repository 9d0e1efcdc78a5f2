/** The constants of resume_docs/constants.py that the core consults. */
module Constants {

  const SupportedLocales: seq<string> := ["zh-CN", "en-US"]
  const DefaultLocale: string := "zh-CN"
  const DefaultTheme: string := "modern"
  const DefaultUseCase: string := "summary"

  /** The keys of `THEMES`; the layout values of each theme only matter to rendering. */
  const ThemeKeys: seq<string> := ["modern", "minimal"]

  /** `DEFAULT_OUTPUT_DIR`, written relative to the repository root; the root itself is not modelled. */
  const DefaultOutputDir: string := "docs/output"

  const RolePerspectiveAllowed: set<string> :=
    {"developer", "architect", "project_manager", "product_owner", "hybrid"}

  const DecisionAccountabilityAllowed: set<string> :=
    {"delivery_owner", "technical_strategy", "people_management", "hands_on_build",
     "commercial_strategy", "risk_governance"}

  const ResponsibilityFocusAllowed: set<string> :=
    {"planning", "architecture", "implementation", "operations", "commercialization",
     "stakeholder_management", "compliance"}

  const BudgetLevelAllowed: set<string> := {"lt_100k", "bt_100k_1m", "gt_1m"}
}
