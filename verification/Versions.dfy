/** const.go: the server versions from which a field, a group or an attribute exists. */
module Versions {
  const PTA_ORDERS := 39
  const DELTA_NEUTRAL := 40
  const SCALE_ORDERS2 := 40
  const ALGO_ORDERS := 41
  const NOT_HELD := 44
  const SEC_ID_TYPE := 45
  const PLACE_ORDER_CONID := 46
  const SSHORTX_OLD := 51
  const SSHORTX := 52
  const HEDGE_ORDERS := 54
  const OPT_OUT_SMART_ROUTING := 56
  const SMART_COMBO_ROUTING := 57
  const DELTA_NEUTRAL_CONID := 58
  const SCALE_ORDERS3 := 60
  const ORDER_COMBO_LEGS_PRICE := 61
  const TRAILING_PERCENT := 62
  const DELTA_NEUTRAL_OPEN_CLOSE := 66
  const TRADING_CLASS := 68
  const SCALE_TABLE := 69
  const LINKING := 70
  const ALGO_ID := 71
  const ORDER_SOLICITED := 73
  const RANDOMIZE := 76
  const FRACTIONAL_POSITIONS := 101
  const PEGGED_TO_BENCHMARK := 102
  const MODELS_SUPPORT := 103
  const EXT_OPERATOR := 105
  const SOFT_DOLLAR_TIER := 106
  const CASH_QTY := 111
  const SYNT_REALTIME_BARS := 124
  const DECISION_MAKER := 138
  const MIFID_EXECUTION := 139
  const AUTO_PRICE_FOR_HEDGE := 141
  const WHAT_IF_EXT_FIELDS := 142
  const ORDER_CONTAINER := 145
  const D_PEG_ORDERS := 148
  const PRICE_MGMT_ALGO := 151
  const DURATION := 158
  const POST_TO_ATS := 160
}
